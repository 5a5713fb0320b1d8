/**
 The WAL streaming loop of the CDC pod: consume frames, publish row changes, and report as flushed
 only what has been handled. `Take` specifies one turn of the loop; class `Replicator` is the loop.
 */
module Replication {
  import opened Wrappers
  import opened EventIdentity
  import opened Pgoutput
  import opened CdcHandler
  import opened JetStream
  import opened EventEncoding
  import Subjects

  /** `fits` says whether an event's JSON is within the broker's payload limit. */
  datatype Config = Config(
    projectID: string, subjectPrefix: string, standbyStatusIntervalS: int, fits: CdcEvent -> bool)
  {
    /** Nanoseconds between periodic status updates. */
    function Interval(): int {
      (if standbyStatusIntervalS < 1 then 10 else standbyStatusIntervalS) * 1_000_000_000
    }
  }

  /** What ReceiveMessage yields, with the broker's answer for a frame that publishes. */
  datatype Received =
    | TimedOut
    | ConnectionLost
    | ServerError
    | Ignored                                   // not CopyData, or empty
    | OtherFrame                                // CopyData of an unknown frame type
    | BadFrame                                  // XLogData or keepalive that does not parse
    | XLog(x: XLogData, outcome: PublishOutcome)
    | Keepalive(replyRequested: bool)

  /** One turn of the loop: cancellation before and during the receive, and three clock readings. */
  datatype Turn = Turn(
    cancelled: bool, received: Received, cancelledDuring: bool,
    repliedAt: int, checkedAt: int, resetAt: int)

  datatype Exit = Running | Stopped | Failed

  datatype Loop = Loop(
    mem: State, pos: Lsn, flushed: Lsn, nextUpdate: int, reports: seq<Lsn>, exit: Exit)

  function Initial(cfg: Config, startLSN: Lsn, now: int): Loop {
    Loop(FRESH, startLSN, startLSN, now + cfg.Interval(), [], Running)
  }

  function SubjectFor(cfg: Config, e: CdcEvent): string {
    Subjects.CdcSubject(cfg.subjectPrefix, cfg.projectID, e.operation, e.table)
  }

  function MessageFor(cfg: Config, e: CdcEvent): StoredMsg {
    StoredMsg(SubjectFor(cfg, e), e.eventID, e)
  }

  /** The event reaches the broker at all: marshalling and the client's own checks let it pass. */
  predicate Sendable(cfg: Config, e: CdcEvent) {
    Marshals(e) && Publishable(SubjectFor(cfg, e)) && cfg.fits(e)
  }

  datatype Handled = Handled(mem: State, log: seq<StoredMsg>, ok: bool)

  function Handle(cfg: Config, mem: State, log: seq<StoredMsg>, x: XLogData, o: PublishOutcome): Handled {
    if x.msg.IsChange() then
      match EventOf(mem, cfg.projectID, x.walStart, x.msg)
      case Err(_) => Handled(mem, log, false)
      case Ok(e) =>
        if !Sendable(cfg, e) then Handled(mem, log, false)
        else Handled(mem, Published(log, MessageFor(cfg, e), o), o.Acknowledged?)
    else if x.msg.Unparsable? then Handled(mem, log, false)
    else Handled(Observe(mem, x.msg), log, true)
  }

  /**
   What one frame comes to. A frame that does not parse, or a change of an unknown table, fails and
   changes nothing; a change is told by one message and succeeds exactly if the broker acknowledges
   it; of the other frames a Relation and a Begin are remembered and nothing is published.
   */
  lemma FrameMeans(cfg: Config, mem: State, log: seq<StoredMsg>, x: XLogData, o: PublishOutcome)
    ensures var h := Handle(cfg, mem, log, x, o);
      && (x.msg.Unparsable? || (x.msg.IsChange() && x.msg.relId !in mem.relations) ==> h == Handled(mem, log, false))
      && (x.msg.RelationMessage? ==>
            h == Handled(mem.(relations := mem.relations[x.msg.id := x.msg.rel]), log, true))
      && (x.msg.BeginMessage? ==> h == Handled(State(mem.relations, x.msg.xid, x.msg.commitTime), log, true))
      && (x.msg.CommitMessage? || x.msg.TypeMessage? || x.msg.OriginMessage? || x.msg.TruncateMessage? ==>
            h == Handled(mem, log, true))
    ensures x.msg.IsChange() && x.msg.relId in mem.relations ==>
      exists e :: Tells(e, cfg.projectID, x.walStart, mem.xid, mem.commitTime, mem.relations[x.msg.relId], x.msg)
        && Handle(cfg, mem, log, x, o)
           == if Sendable(cfg, e) then Handled(mem, Published(log, MessageFor(cfg, e), o), o == Acknowledged)
              else Handled(mem, log, false)
  {
    hide Tells, Sendable, Published, EventOf, MessageFor;
    if x.msg.IsChange() {
      EventTells(mem, cfg.projectID, x.walStart, x.msg);
    }
  }

  function Report(l: Loop): Loop {
    l.(reports := l.reports + [l.flushed])
  }

  function Periodic(cfg: Config, l: Loop, t: Turn): Loop {
    if t.checkedAt > l.nextUpdate then Report(l).(nextUpdate := t.resetAt + cfg.Interval()) else l
  }

  function Later(a: Lsn, b: Lsn): Lsn { if b > a then b else a }

  function Take(cfg: Config, l: Loop, log: seq<StoredMsg>, t: Turn): (Loop, seq<StoredMsg>) {
    if l.exit != Running then (l, log)
    else if t.cancelled then (Report(l).(exit := Stopped), log)
    else
      match t.received
      case TimedOut => (Periodic(cfg, l, t), log)
      case ConnectionLost =>
        (if t.cancelledDuring then Report(l).(exit := Stopped) else l.(exit := Failed), log)
      case ServerError => (l.(exit := Failed), log)
      case Ignored => (l, log)
      case OtherFrame => (Periodic(cfg, l, t), log)
      case BadFrame => (l.(exit := Failed), log)
      case XLog(x, o) =>
        var h := Handle(cfg, l.mem, log, x, o);
        var moved := l.(mem := h.mem, pos := Later(l.pos, NewPos(x)));
        if h.ok then (Periodic(cfg, moved.(flushed := moved.pos), t), h.log)
        else (moved.(exit := Failed), h.log)
      case Keepalive(reply) =>
        var replied := if reply then Report(l).(nextUpdate := t.repliedAt + cfg.Interval()) else l;
        (Periodic(cfg, replied, t), log)
  }

  function Run(cfg: Config, l: Loop, log: seq<StoredMsg>, turns: seq<Turn>): (Loop, seq<StoredMsg>) {
    if turns == [] then (l, log)
    else
      var before := Run(cfg, l, log, turns[..|turns| - 1]);
      Take(cfg, before.0, before.1, turns[|turns| - 1])
  }

  class Replicator {
    const cfg: Config
    const hnd: Handler
    const pub: Stream
    /** Flush positions sent to the server on this connection, in order. */
    var sent: seq<Lsn>

    constructor (cfg: Config, hnd: Handler, pub: Stream)
      ensures this.cfg == cfg && this.hnd == hnd && this.pub == pub && sent == []
    {
      this.cfg, this.hnd, this.pub, sent := cfg, hnd, pub, [];
    }

    method SendStandbyStatus(flushedLSN: Lsn)
      modifies this
      ensures sent == old(sent) + [flushedLSN]
    {
      sent := sent + [flushedLSN];
    }

    /** `o` is the broker's answer; an event that cannot be sent fails without one. */
    method Publish(e: CdcEvent, o: PublishOutcome) returns (ok: bool)
      modifies pub
      ensures Sendable(cfg, e) ==> pub.messages == Published(old(pub.messages), MessageFor(cfg, e), o)
      ensures !Sendable(cfg, e) ==> pub.messages == old(pub.messages)
      ensures ok <==> Sendable(cfg, e) && o.Acknowledged?
    {
      var subject := Subjects.CdcSubject(cfg.subjectPrefix, cfg.projectID, e.operation, e.table);
      if !Marshals(e) {
        return false;
      }
      if !Publishable(subject) || !cfg.fits(e) {
        return false;
      }
      ok := pub.PublishMsg(StoredMsg(subject, e.eventID, e), o);
    }

    method HandleWALData(x: XLogData, o: PublishOutcome) returns (ok: bool)
      modifies hnd, pub
      ensures Handled(hnd.Memory(), pub.messages, ok)
              == Handle(cfg, old(hnd.Memory()), old(pub.messages), x, o)
    {
      ok := true;
      var r: Result<CdcEvent, HandlerError>;
      match x.msg {
        case Unparsable =>
          return false;
        case RelationMessage(id, rel) =>
          hnd.HandleRelationMessage(id, rel);
          return;
        case BeginMessage(xid, ts) =>
          hnd.HandleBeginMessage(xid, ts);
          return;
        case InsertMessage(relId, t) =>
          r := hnd.HandleInsertMessage(relId, t, cfg.projectID, x.walStart);
        case UpdateMessage(relId, oldT, newT) =>
          r := hnd.HandleUpdateMessage(relId, oldT, newT, cfg.projectID, x.walStart);
        case DeleteMessage(relId, oldT) =>
          r := hnd.HandleDeleteMessage(relId, oldT, cfg.projectID, x.walStart);
        case _ =>
          return;
      }
      if r.Err? {
        return false;
      }
      ok := Publish(r.value, o);
    }

    /**
     The streaming loop over a finite script of the environment; a script that ends while the loop
     is running is a pod killed at that point.
     */
    method StreamLoop(startLSN: Lsn, now: int, turns: seq<Turn>) returns (exit: Exit)
      requires hnd.Memory() == FRESH && sent == []
      modifies this, hnd, pub
      ensures exit == Run(cfg, Initial(cfg, startLSN, now), old(pub.messages), turns).0.exit
      ensures sent == Run(cfg, Initial(cfg, startLSN, now), old(pub.messages), turns).0.reports
      ensures hnd.Memory() == Run(cfg, Initial(cfg, startLSN, now), old(pub.messages), turns).0.mem
      ensures pub.messages == Run(cfg, Initial(cfg, startLSN, now), old(pub.messages), turns).1
    {
      var clientXLogPos := startLSN;
      var flushedLSN := startLSN;
      var intervalS := cfg.standbyStatusIntervalS;
      if intervalS < 1 {
        intervalS := 10;
      }
      var standbyInterval := intervalS * 1_000_000_000;
      var nextStandbyUpdate := now + standbyInterval;
      exit := Running;

      ghost var start := Initial(cfg, startLSN, now);
      ghost var log0 := pub.messages;
      RunStart(cfg, start, log0, turns);
      hide Run, Handle, NewPos;
      var i := 0;
      while i < |turns| && exit == Running
        invariant 0 <= i <= |turns|
        invariant Run(cfg, start, log0, turns[..i])
                  == (Loop(hnd.Memory(), clientXLogPos, flushedLSN, nextStandbyUpdate, sent, exit), pub.messages)
        decreases |turns| - i
      {
        var t := turns[i];
        RunNext(cfg, start, log0, turns, i);
        i := i + 1;
        if t.cancelled {
          SendStandbyStatus(flushedLSN);
          exit := Stopped;
          continue;
        }
        match t.received {
          case TimedOut =>
            if t.checkedAt > nextStandbyUpdate {
              SendStandbyStatus(flushedLSN);
              nextStandbyUpdate := t.resetAt + standbyInterval;
            }
            continue;
          case ConnectionLost =>
            if t.cancelledDuring {
              SendStandbyStatus(flushedLSN);
              exit := Stopped;
            } else {
              exit := Failed;
            }
            continue;
          case ServerError =>
            exit := Failed;
            continue;
          case Ignored =>
            continue;
          case OtherFrame =>
          case BadFrame =>
            exit := Failed;
            continue;
          case XLog(x, o) =>
            var newPos := NewPos(x);
            if newPos > clientXLogPos {
              clientXLogPos := newPos;
            }
            var ok := HandleWALData(x, o);
            if !ok {
              exit := Failed;
              continue;
            }
            flushedLSN := clientXLogPos;
          case Keepalive(replyRequested) =>
            if replyRequested {
              SendStandbyStatus(flushedLSN);
              nextStandbyUpdate := t.repliedAt + standbyInterval;
            }
        }
        if t.checkedAt > nextStandbyUpdate {
          SendStandbyStatus(flushedLSN);
          nextStandbyUpdate := t.resetAt + standbyInterval;
        }
      }
      StoppedForGood(cfg, start, log0, turns, i);
      assert turns[..|turns|] == turns;
    }
  }

  lemma RunStart(cfg: Config, l: Loop, log: seq<StoredMsg>, turns: seq<Turn>)
    ensures Run(cfg, l, log, turns[..0]) == (l, log)
  {
  }

  /** Once the loop has left, further input changes nothing. */
  lemma {:induction false} StoppedForGood(cfg: Config, l: Loop, log: seq<StoredMsg>, turns: seq<Turn>, i: nat)
    requires i <= |turns|
    requires i == |turns| || Run(cfg, l, log, turns[..i]).0.exit != Running
    ensures Run(cfg, l, log, turns[..i]) == Run(cfg, l, log, turns)
    decreases |turns|
  {
    if i == |turns| {
      assert turns[..i] == turns;
    } else {
      var shorter := turns[..|turns| - 1];
      assert shorter[..i] == turns[..i];
      StoppedForGood(cfg, l, log, shorter, i);
    }
  }

  // The flush position

  /** The frames among the first turns. */
  function Frames(turns: seq<Turn>): seq<XLogData> {
    if turns == [] then []
    else
      var rest := Frames(turns[..|turns| - 1]);
      var last := turns[|turns| - 1].received;
      if last.XLog? then rest + [last.x] else rest
  }

  function EndPosition(start: Lsn, frames: seq<XLogData>): Lsn {
    if frames == [] then start
    else Later(EndPosition(start, frames[..|frames| - 1]), NewPos(frames[|frames| - 1]))
  }

  lemma {:induction false} EndPositionIsMaximum(start: Lsn, frames: seq<XLogData>)
    ensures EndPosition(start, frames) >= start
    ensures forall i :: 0 <= i < |frames| ==> EndPosition(start, frames) >= NewPos(frames[i])
    ensures EndPosition(start, frames) == start
            || exists i :: 0 <= i < |frames| && EndPosition(start, frames) == NewPos(frames[i])
    decreases |frames|
  {
    hide NewPos;
    if frames != [] {
      var n := |frames| - 1;
      EndPositionIsMaximum(start, frames[..n]);
      assert forall i :: 0 <= i < n ==> frames[..n][i] == frames[i];
    }
  }

  /** Every frame among these turns was handled without error when its turn came. */
  ghost predicate AllHandled(cfg: Config, l: Loop, log: seq<StoredMsg>, turns: seq<Turn>) {
    forall j :: 0 <= j < |turns| && turns[j].received.XLog? ==>
      var before := Run(cfg, l, log, turns[..j]);
      Handle(cfg, before.0.mem, before.1, turns[j].received.x, turns[j].received.outcome).ok
  }

  /** The report equals the end of everything received by some moment, all of it handled. */
  ghost predicate Backed(cfg: Config, start: Lsn, now: int, log: seq<StoredMsg>, turns: seq<Turn>, report: Lsn) {
    exists k :: 0 <= k <= |turns|
      && AllHandled(cfg, Initial(cfg, start, now), log, turns[..k])
      && report == EndPosition(start, Frames(turns[..k]))
  }

  /** What a turn does to everything but the reports. */
  lemma TurnShape(cfg: Config, l: Loop, log: seq<StoredMsg>, t: Turn)
    ensures l.exit != Running ==> Take(cfg, l, log, t) == (l, log)
    ensures l.exit == Running ==>
      var (l', log') := Take(cfg, l, log, t);
      if !t.cancelled && t.received.XLog? then
        var h := Handle(cfg, l.mem, log, t.received.x, t.received.outcome);
        && log' == h.log
        && (l'.exit == Running <==> h.ok)
        && (h.ok ==> l'.mem == h.mem && l'.pos == l'.flushed == Later(l.pos, NewPos(t.received.x)))
      else
        && log' == log
        && (l'.exit == Running ==> !t.received.XLog?)
        && (l'.exit == Running ==> l'.mem == l.mem && l'.pos == l.pos && l'.flushed == l.flushed)
  {
    hide Handle, Later, NewPos;
  }

  lemma {:induction false} RunningPosition(cfg: Config, start: Lsn, now: int, log: seq<StoredMsg>, turns: seq<Turn>)
    requires Run(cfg, Initial(cfg, start, now), log, turns).0.exit == Running
    ensures AllHandled(cfg, Initial(cfg, start, now), log, turns)
    ensures Run(cfg, Initial(cfg, start, now), log, turns).0.pos == EndPosition(start, Frames(turns))
    ensures Run(cfg, Initial(cfg, start, now), log, turns).0.flushed == EndPosition(start, Frames(turns))
    decreases |turns|
  {
    hide Take, Handle, Later;
    if turns != [] {
      var init := Initial(cfg, start, now);
      var shorter := turns[..|turns| - 1];
      var before := Run(cfg, init, log, shorter);
      TurnShape(cfg, before.0, before.1, turns[|turns| - 1]);
      RunningPosition(cfg, start, now, log, shorter);
      forall j | 0 <= j < |turns| && turns[j].received.XLog?
        ensures var before := Run(cfg, init, log, turns[..j]);
                Handle(cfg, before.0.mem, before.1, turns[j].received.x, turns[j].received.outcome).ok
      {
        assert j < |shorter| ==> shorter[..j] == turns[..j] && shorter[j] == turns[j];
        assert j == |shorter| ==> turns[..j] == shorter;
      }
      var last := turns[|turns| - 1].received;
      if last.XLog? {
        assert Frames(turns)[..|Frames(turns)| - 1] == Frames(shorter);
      }
    }
  }

  ghost predicate Nondecreasing(positions: seq<Lsn>) {
    forall i, j :: 0 <= i < j < |positions| ==> positions[i] <= positions[j]
  }

  lemma BackedLater(cfg: Config, start: Lsn, now: int, log: seq<StoredMsg>, turns: seq<Turn>, n: nat, report: Lsn)
    requires n <= |turns|
    requires Backed(cfg, start, now, log, turns[..n], report)
    ensures Backed(cfg, start, now, log, turns, report)
  {
    var k :| 0 <= k <= n
      && AllHandled(cfg, Initial(cfg, start, now), log, turns[..n][..k])
      && report == EndPosition(start, Frames(turns[..n][..k]));
    assert turns[..n][..k] == turns[..k];
  }

  /** One turn reports only the flushed position it started or ended with, in that order. */
  lemma TurnReports(cfg: Config, l: Loop, log: seq<StoredMsg>, t: Turn)
    ensures var after := Take(cfg, l, log, t).0;
      || after.reports == l.reports
      || (l.exit == Running && (after.reports == l.reports + [l.flushed]
                                || after.reports == l.reports + [l.flushed, l.flushed]))
      || (l.exit == Running && after.exit == Running && after.reports == l.reports + [after.flushed])
    ensures l.flushed <= l.pos ==> l.flushed <= Take(cfg, l, log, t).0.flushed
  {
    hide Handle, NewPos;
    if l.exit == Running && !t.cancelled && t.received.Keepalive? {
      assert l.reports + [l.flushed] + [l.flushed] == l.reports + [l.flushed, l.flushed];
    }
  }

  ghost predicate AllBacked(cfg: Config, start: Lsn, now: int, log: seq<StoredMsg>, turns: seq<Turn>, reports: seq<Lsn>) {
    forall i :: 0 <= i < |reports| ==> Backed(cfg, start, now, log, turns, reports[i])
  }

  /**
   Every position ever reported as flushed is the end of all WAL received by some moment, all of
   which had been handled without error; successive reports never decrease. This covers periodic
   updates, keepalive replies and both shutdown paths.
   */
  lemma {:induction false} FlushPosition(cfg: Config, start: Lsn, now: int, log: seq<StoredMsg>, turns: seq<Turn>)
    ensures AllBacked(cfg, start, now, log, turns, Run(cfg, Initial(cfg, start, now), log, turns).0.reports)
    ensures Nondecreasing(Run(cfg, Initial(cfg, start, now), log, turns).0.reports
                          + [Run(cfg, Initial(cfg, start, now), log, turns).0.flushed])
    decreases |turns|
  {
    hide Take, EndPosition;
    if turns != [] {
      var n := |turns| - 1;
      var prefix := turns[..n];
      FlushPosition(cfg, start, now, log, prefix);
      var before := Run(cfg, Initial(cfg, start, now), log, prefix);
      var after := Take(cfg, before.0, before.1, turns[n]).0;
      TurnReports(cfg, before.0, before.1, turns[n]);
      TurnShape(cfg, before.0, before.1, turns[n]);
      forall i | 0 <= i < |before.0.reports|
        ensures Backed(cfg, start, now, log, turns, before.0.reports[i])
      {
        BackedLater(cfg, start, now, log, turns, n, before.0.reports[i]);
      }
      if before.0.exit == Running {
        RunningPosition(cfg, start, now, log, prefix);
        assert Backed(cfg, start, now, log, prefix, before.0.flushed) by {
          assert prefix[..n] == prefix;
        }
        BackedLater(cfg, start, now, log, turns, n, before.0.flushed);
        if after.exit == Running {
          RunningPosition(cfg, start, now, log, turns);
          assert Backed(cfg, start, now, log, turns, after.flushed) by {
            assert turns[..|turns|] == turns;
          }
        }
      }
      NondecreasingAppend(before.0.reports, before.0.flushed, after.reports, after.flushed);
    }
  }

  lemma NondecreasingAppend(rs: seq<Lsn>, last: Lsn, rs': seq<Lsn>, last': Lsn)
    requires Nondecreasing(rs + [last]) && last <= last'
    requires rs' == rs || rs' == rs + [last] || rs' == rs + [last, last] || rs' == rs + [last']
    ensures Nondecreasing(rs' + [last'])
  {
    var all := rs + [last];
    forall i | 0 <= i < |rs|
      ensures rs[i] <= last
    {
      assert all[i] == rs[i] && all[|rs|] == last;
    }
    forall i, j | 0 <= i < j < |rs|
      ensures rs[i] <= rs[j]
    {
      assert all[i] == rs[i] && all[j] == rs[j];
    }
  }

  /** A report made on a handled frame already covers it; any other report is the position before the turn. */
  lemma ReportCovers(cfg: Config, l: Loop, log: seq<StoredMsg>, t: Turn, i: nat)
    requires |l.reports| <= i < |Take(cfg, l, log, t).0.reports|
    ensures var after := Take(cfg, l, log, t).0;
      && l.exit == Running
      && (if !t.cancelled && t.received.XLog? then after.exit == Running && after.reports[i] == after.flushed
          else after.reports[i] == l.flushed)
  {
    hide Handle, NewPos, Later;
  }

  /** All WAL the loop has received when turn `n` reports: a cancelled turn receives nothing. */
  function ReceivedBy(turns: seq<Turn>, n: nat): seq<XLogData>
    requires n < |turns|
  {
    Frames(turns[..n]) + if !turns[n].cancelled && turns[n].received.XLog? then [turns[n].received.x] else []
  }

  /**
   The position reported in a turn is, to the frame, the end of all WAL received by then, and all of
   it has been handled.
   */
  lemma ReportIsEndOfReceived(cfg: Config, start: Lsn, now: int, log: seq<StoredMsg>, turns: seq<Turn>, n: nat, i: nat)
    requires n < |turns|
    requires |Run(cfg, Initial(cfg, start, now), log, turns[..n]).0.reports| <= i
             < |Run(cfg, Initial(cfg, start, now), log, turns[..n + 1]).0.reports|
    ensures Run(cfg, Initial(cfg, start, now), log, turns[..n + 1]).0.reports[i] == EndPosition(start, ReceivedBy(turns, n))
    ensures AllHandled(cfg, Initial(cfg, start, now), log,
                       if !turns[n].cancelled && turns[n].received.XLog? then turns[..n + 1] else turns[..n])
  {
    var init := Initial(cfg, start, now);
    var before := Run(cfg, init, log, turns[..n]);
    assert turns[..n + 1][..n] == turns[..n] && turns[..n + 1][n] == turns[n];
    assert Run(cfg, init, log, turns[..n + 1]) == Take(cfg, before.0, before.1, turns[n]);
    ReportCovers(cfg, before.0, before.1, turns[n], i);
    RunningPosition(cfg, start, now, log, turns[..n]);
    if !turns[n].cancelled && turns[n].received.XLog? {
      RunningPosition(cfg, start, now, log, turns[..n + 1]);
      assert Frames(turns[..n + 1]) == ReceivedBy(turns, n);
    } else {
      assert ReceivedBy(turns, n) == Frames(turns[..n]);
    }
    hide Take, Run, Frames, EndPosition, AllHandled;
  }

  // Reports are made when they are due

  /** Nanoseconds between updates as configured: whole seconds, ten if the setting is below one. */
  function Pause(cfg: Config): int {
    if cfg.standbyStatusIntervalS < 1 then 10_000_000_000 else cfg.standbyStatusIntervalS * 1_000_000_000
  }

  /** The turn ends the loop in good order. */
  predicate ShutsDown(t: Turn) {
    t.cancelled || (t.received.ConnectionLost? && t.cancelledDuring)
  }

  /** The turn gets to the clock check at the loop's end: nothing was skipped, nothing failed. */
  predicate ChecksClock(t: Turn) {
    !t.cancelled && !t.received.Ignored?
  }

  predicate Replies(t: Turn) {
    t.received == Keepalive(true)
  }

  /** What a turn that keeps the loop running reports, and when the next report falls due. */
  lemma TurnTicks(cfg: Config, l: Loop, log: seq<StoredMsg>, t: Turn)
    requires Take(cfg, l, log, t).0.exit == Running
    ensures var after := Take(cfg, l, log, t).0;
      var due := if Replies(t) then t.repliedAt + Pause(cfg) else l.nextUpdate;
      var past := ChecksClock(t) && t.checkedAt > due;
      && after.reports == l.reports + (if Replies(t) then [l.flushed] else []) + (if past then [after.flushed] else [])
      && after.nextUpdate == if past then t.resetAt + Pause(cfg) else due
  {
    hide Handle, NewPos, Later;
  }

  /** How a turn ends the loop: in good order with a report, or in failure without one. */
  lemma TurnStops(cfg: Config, l: Loop, log: seq<StoredMsg>, t: Turn)
    requires l.exit == Running
    ensures var after := Take(cfg, l, log, t).0;
      && (after.exit == Stopped <==> ShutsDown(t))
      && (after.exit == Failed <==>
            && !ShutsDown(t)
            && (|| t.received.ConnectionLost? || t.received.ServerError? || t.received.BadFrame?
                || (t.received.XLog? && !Handle(cfg, l.mem, log, t.received.x, t.received.outcome).ok)))
      && (after.exit == Failed ==> after.reports == l.reports)
      && (ShutsDown(t) ==> after.reports == l.reports + [l.flushed])
  {
    hide Handle, NewPos, Later;
  }

  lemma {:induction false} RunningBefore(cfg: Config, l: Loop, log: seq<StoredMsg>, turns: seq<Turn>, n: nat)
    requires n <= |turns| && Run(cfg, l, log, turns).0.exit == Running
    ensures Run(cfg, l, log, turns[..n]).0.exit == Running
    decreases |turns|
  {
    if n < |turns| {
      var shorter := turns[..|turns| - 1];
      assert shorter[..n] == turns[..n];
      RunningBefore(cfg, l, log, shorter, n);
    } else {
      assert turns[..n] == turns;
    }
  }

  lemma RunNext(cfg: Config, l: Loop, log: seq<StoredMsg>, turns: seq<Turn>, n: nat)
    requires n < |turns|
    ensures var before := Run(cfg, l, log, turns[..n]);
      Run(cfg, l, log, turns[..n + 1]) == Take(cfg, before.0, before.1, turns[n])
  {
    assert turns[..n + 1][..n] == turns[..n] && turns[..n + 1][n] == turns[n];
  }

  /**
   A loop still running after turn `n` has reported in it, first, the end of all frames before if a
   keepalive asked, then the end of all frames so far exactly if the clock was past the due time.
   */
  lemma ReportsWhenDue(cfg: Config, start: Lsn, now: int, log: seq<StoredMsg>, turns: seq<Turn>, n: nat)
    requires n < |turns| && Run(cfg, Initial(cfg, start, now), log, turns[..n + 1]).0.exit == Running
    ensures var before := Run(cfg, Initial(cfg, start, now), log, turns[..n]).0;
      var after := Run(cfg, Initial(cfg, start, now), log, turns[..n + 1]).0;
      var t := turns[n];
      var due := if Replies(t) then t.repliedAt + Pause(cfg) else before.nextUpdate;
      after.reports == before.reports
                       + (if Replies(t) then [EndPosition(start, Frames(turns[..n]))] else [])
                       + (if ChecksClock(t) && t.checkedAt > due then [EndPosition(start, Frames(turns[..n + 1]))] else [])
  {
    var init := Initial(cfg, start, now);
    RunNext(cfg, init, log, turns, n);
    var before := Run(cfg, init, log, turns[..n]);
    hide Take, Run, EndPosition, Frames, Initial;
    assert turns[..n + 1][..n] == turns[..n];
    RunningBefore(cfg, init, log, turns[..n + 1], n);
    TurnTicks(cfg, before.0, before.1, turns[n]);
    RunningPosition(cfg, start, now, log, turns[..n]);
    RunningPosition(cfg, start, now, log, turns[..n + 1]);
  }

  /** Turn `j` is the last one that reported. */
  ghost predicate LastReport(cfg: Config, l: Loop, log: seq<StoredMsg>, turns: seq<Turn>, j: nat)
    requires j < |turns|
  {
    |Run(cfg, l, log, turns[..j]).0.reports| < |Run(cfg, l, log, turns[..j + 1]).0.reports|
    == |Run(cfg, l, log, turns).0.reports|
  }

  /** One pause after this turn's last report: that of its clock check, or else its reply. */
  predicate DueAfter(cfg: Config, t: Turn, due: int) {
    || due == t.resetAt + Pause(cfg)
    || (due == t.repliedAt + Pause(cfg) && Replies(t) && t.checkedAt <= due)
  }

  /** Some turn reported last, and this due time is the one after it. */
  ghost predicate DueAfterLast(cfg: Config, l: Loop, log: seq<StoredMsg>, turns: seq<Turn>, due: int) {
    exists j :: 0 <= j < |turns| && LastReport(cfg, l, log, turns, j) && DueAfter(cfg, turns[j], due)
  }

  lemma LastReportLater(cfg: Config, l: Loop, log: seq<StoredMsg>, turns: seq<Turn>, t: Turn, due: int)
    requires DueAfterLast(cfg, l, log, turns, due)
    requires Run(cfg, l, log, turns + [t]).0.reports == Run(cfg, l, log, turns).0.reports
    ensures DueAfterLast(cfg, l, log, turns + [t], due)
  {
    hide Run, DueAfter;
    var j :| 0 <= j < |turns| && LastReport(cfg, l, log, turns, j) && DueAfter(cfg, turns[j], due);
    var more := turns + [t];
    assert turns[..j] == more[..j] && turns[..j + 1] == more[..j + 1] && turns[j] == more[j];
    assert LastReport(cfg, l, log, more, j);
  }

  lemma ReportsNow(cfg: Config, l: Loop, log: seq<StoredMsg>, turns: seq<Turn>, t: Turn, due: int)
    requires |Run(cfg, l, log, turns).0.reports| < |Run(cfg, l, log, turns + [t]).0.reports| && DueAfter(cfg, t, due)
    ensures DueAfterLast(cfg, l, log, turns + [t], due)
  {
    hide Run, DueAfter;
    var more := turns + [t];
    assert more[..|turns|] == turns && more[..|turns| + 1] == more && more[|turns|] == t;
    assert LastReport(cfg, l, log, more, |turns|);
  }

  /**
   While the loop runs, the due time is one pause after the start until something is reported, and
   then one pause after the clock reading that followed the last report.
   */
  lemma {:induction false} DueTime(cfg: Config, start: Lsn, now: int, log: seq<StoredMsg>, turns: seq<Turn>)
    requires Run(cfg, Initial(cfg, start, now), log, turns).0.exit == Running
    ensures var init := Initial(cfg, start, now);
      var l := Run(cfg, init, log, turns).0;
      if l.reports == [] then l.nextUpdate == now + Pause(cfg) else DueAfterLast(cfg, init, log, turns, l.nextUpdate)
    decreases |turns|
  {
    var init := Initial(cfg, start, now);
    if turns != [] {
      var n := |turns| - 1;
      var shorter, t := turns[..n], turns[n];
      var before := Run(cfg, init, log, shorter);
      assert turns == shorter + [t];
      RunNext(cfg, init, log, turns, n);
      assert turns[..n + 1] == turns;
      hide Take, Run, Initial, DueAfterLast;
      RunningBefore(cfg, init, log, turns, n);
      DueTime(cfg, start, now, log, shorter);
      TurnTicks(cfg, before.0, before.1, t);
      var l := Run(cfg, init, log, turns).0;
      if |l.reports| > |before.0.reports| {
        ReportsNow(cfg, init, log, shorter, t, l.nextUpdate);
      } else if l.reports != [] {
        LastReportLater(cfg, init, log, shorter, t, l.nextUpdate);
      }
    }
  }

  /** Turn `n` finds the loop running and shuts it down. */
  ghost predicate StopsAt(cfg: Config, l: Loop, log: seq<StoredMsg>, turns: seq<Turn>, n: nat)
    requires n < |turns|
  {
    Run(cfg, l, log, turns[..n]).0.exit == Running && ShutsDown(turns[n])
  }

  /** The last thing a loop that is shut down reports is the end of all frames received before. */
  lemma StopReports(cfg: Config, start: Lsn, now: int, log: seq<StoredMsg>, turns: seq<Turn>, n: nat)
    requires n < |turns| && StopsAt(cfg, Initial(cfg, start, now), log, turns, n)
    ensures var l := Run(cfg, Initial(cfg, start, now), log, turns).0;
      && l.exit == Stopped
      && l.reports == Run(cfg, Initial(cfg, start, now), log, turns[..n]).0.reports
                      + [EndPosition(start, Frames(turns[..n]))]
  {
    var init := Initial(cfg, start, now);
    var before := Run(cfg, init, log, turns[..n]);
    RunNext(cfg, init, log, turns, n);
    TurnStops(cfg, before.0, before.1, turns[n]);
    RunningPosition(cfg, start, now, log, turns[..n]);
    StoppedForGood(cfg, init, log, turns, n + 1);
    hide Take, Run, Initial, EndPosition, Frames;
  }

  /** And a loop that has stopped in good order was shut down by some turn. */
  lemma {:induction false} StoppedSomewhere(cfg: Config, start: Lsn, now: int, log: seq<StoredMsg>, turns: seq<Turn>)
    returns (n: nat)
    requires Run(cfg, Initial(cfg, start, now), log, turns).0.exit == Stopped
    ensures n < |turns| && StopsAt(cfg, Initial(cfg, start, now), log, turns, n)
    decreases |turns|
  {
    var init := Initial(cfg, start, now);
    var k := |turns| - 1;
    var before := Run(cfg, init, log, turns[..k]);
    if before.0.exit == Running {
      TurnStops(cfg, before.0, before.1, turns[k]);
      n := k;
    } else {
      TurnShape(cfg, before.0, before.1, turns[k]);
      hide Take;
      n := StoppedSomewhere(cfg, start, now, log, turns[..k]);
      assert turns[..k][..n] == turns[..n];
    }
  }
}
