/**
 The project's JetStream stream as its publishers see it: an append-only log that drops a message
 whose Nats-Msg-Id it already holds.
 */
module JetStream {
  import opened CdcHandler

  datatype StoredMsg = StoredMsg(subject: string, msgId: string, data: CdcEvent)

  /** What the server did with a publish and what the client was told. */
  datatype PublishOutcome =
    | Acknowledged     // stored or recognised as a duplicate; the client gets the ack
    | AckLost          // stored or recognised as a duplicate; the client gets an error
    | Refused          // not stored; the client gets an error

  predicate Holds(log: seq<StoredMsg>, id: string) {
    exists i :: 0 <= i < |log| && log[i].msgId == id
  }

  function Store(log: seq<StoredMsg>, m: StoredMsg): (r: seq<StoredMsg>)
    ensures |log| <= |r| <= |log| + 1 && r[..|log|] == log
    ensures Holds(r, m.msgId)
  {
    if Holds(log, m.msgId) then log
    else
      assert (log + [m])[|log|].msgId == m.msgId;
      log + [m]
  }

  function Published(log: seq<StoredMsg>, m: StoredMsg, o: PublishOutcome): seq<StoredMsg> {
    if o.Refused? then log else Store(log, m)
  }

  ghost predicate UniqueIds(log: seq<StoredMsg>) {
    forall i, j :: 0 <= i < j < |log| ==> log[i].msgId != log[j].msgId
  }

  class Stream {
    var messages: seq<StoredMsg>

    constructor ()
      ensures messages == []
    {
      messages := [];
    }

    /** Publishes one message; returns whether the client saw the acknowledgement. */
    method PublishMsg(m: StoredMsg, outcome: PublishOutcome) returns (acked: bool)
      modifies this
      ensures messages == Published(old(messages), m, outcome)
      ensures acked == outcome.Acknowledged?
    {
      if !outcome.Refused? && !Holds(messages, m.msgId) {
        messages := messages + [m];
      }
      acked := outcome.Acknowledged?;
    }
  }
}
