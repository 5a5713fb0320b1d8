/** The logical replication messages a pgoutput slot sends, after pglogrepl has parsed them. */
module Pgoutput {
  import opened Wrappers
  import opened EventIdentity

  /** One column of a tuple: 'n' is NULL, 'u' an unchanged TOAST value, 't' text. */
  datatype Column = Column(kind: char, data: string)
  datatype ColumnMeta = ColumnMeta(name: string, typeOid: nat)
  datatype Relation = Relation(name: string, columns: seq<ColumnMeta>)

  type Tuple = Option<seq<Column>>

  datatype Message =
    | RelationMessage(id: nat, rel: Relation)
    | BeginMessage(xid: nat, commitTime: int)
    | InsertMessage(relId: nat, newTuple: Tuple)
    | UpdateMessage(relId: nat, oldTuple: Tuple, newTuple: Tuple)
    | DeleteMessage(relId: nat, oldTuple: Tuple)
    | CommitMessage
    | TypeMessage
    | OriginMessage
    | TruncateMessage
    | Unparsable
  {
    /** Row changes become events; TRUNCATE does not. */
    predicate IsChange() {
      InsertMessage? || UpdateMessage? || DeleteMessage?
    }
  }

  /** A frame's payload length: the wire format counts it in a 32-bit field. */
  type FrameLength = n: nat | n < 0x1_0000_0000

  /** One XLogData frame: where its WAL starts, how many bytes it carries, and the message. */
  datatype XLogData = XLogData(walStart: Lsn, length: FrameLength, msg: Message)

  /** The end position the client computes for a frame; 64-bit addition wraps around. */
  function NewPos(x: XLogData): Lsn {
    var end := x.walStart + x.length;
    if end < TWO64 then end else end - TWO64
  }
}
