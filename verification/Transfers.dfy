/** The transfer record: the database row, its in-memory copy, and the questions asked of either. */
module Transfers {

  datatype Option<+T> = None | Some(value: T)

  /** Instants, in any fixed unit; 0 stands for Go's zero time. */
  type Time = int

  type Int32 = x: int | -0x8000_0000 <= x < 0x8000_0000
  type UInt32 = x: int | 0 <= x < 0x1_0000_0000
  type UInt64 = x: int | 0 <= x < 0x1_0000_0000_0000_0000

  /** Go's int32(x) of an unsigned value: keep the low 32 bits, read them as two's complement. */
  function ToInt32(x: UInt64): (r: Int32)
    ensures (x - r) % 0x1_0000_0000 == 0
  {
    var low := x % 0x1_0000_0000;
    if low < 0x8000_0000 then low else low - 0x1_0000_0000
  }

  /** Go's uint32(x) of a signed value. */
  function ToUInt32(x: Int32): (r: UInt32)
    ensures (r - x) % 0x1_0000_0000 == 0
  {
    if x < 0 then x + 0x1_0000_0000 else x
  }

  /** The round trip through the signed column keeps exactly the low 32 bits, so it is the
      identity precisely on sequences below 2^32; and it is the identity on the column side. */
  lemma SequenceRoundTrip(x: UInt64, y: Int32)
    ensures ToUInt32(ToInt32(x)) == x % 0x1_0000_0000
    ensures ToUInt32(ToInt32(x)) == x <==> x < 0x1_0000_0000
    ensures ToInt32(ToUInt32(y)) == y
  {
  }

  datatype RelayStatus =
    | PENDING
    | CHECK_RECV_PACKET_DELIVERY
    | GET_RECV_PACKET
    | DELIVER_RECV_PACKET
    | WAIT_FOR_WRITE_ACK
    | CHECK_ACK_PACKET_DELIVERY
    | GET_ACK_PACKET
    | DELIVER_ACK_PACKET
    | CHECK_TIMEOUT_PACKET_DELIVERY
    | GET_TIMEOUT_PACKET
    | DELIVER_TIMEOUT_PACKET
    | COMPLETE_WITH_ACK
    | COMPLETE_WITH_TIMEOUT
    | FAILED
    | AWAITING_SEND_FINALITY
    | AWAITING_WRITE_ACK_FINALITY
    | COMPLETE_WITH_WRITE_ACK_SUCCESS
    | AWAITING_TIMEOUT_FINALITY
    | COMPLETE_WITH_WRITE_ACK_ERROR
    | CALCULATING_RECV_TX_GAS_COST
    | CALCULATING_ACK_TX_GAS_COST
    | CALCULATING_TIMEOUT_TX_GAS_COST

  datatype WriteAckStatus = SUCCESS | ERROR | UNKNOWN

  /** The WHERE clause of GetUnfinishedIBCV2Transfers. */
  predicate Unfinished(s: RelayStatus) {
    && s != COMPLETE_WITH_ACK
    && s != COMPLETE_WITH_TIMEOUT
    && s != FAILED
    && s != COMPLETE_WITH_WRITE_ACK_SUCCESS
    && s != COMPLETE_WITH_WRITE_ACK_ERROR
  }

  /** The packet a row is about; none of this is ever updated. */
  datatype Packet = Packet(
    sourceChainID: string,
    destinationChainID: string,
    sourceTxHash: string,
    sequence: Int32,
    sourceClientID: string,
    destinationClientID: string,
    timeoutTimestamp: Time)

  /** The unique index of the transfers table, which is also the key of every update. */
  datatype RowKey = RowKey(sourceChainID: string, sourceClientID: string, sequence: Int32)

  function KeyOf(p: Packet): RowKey { RowKey(p.sourceChainID, p.sourceClientID, p.sequence) }

  /** The columns of a recv, ack or timeout tx. */
  datatype TxColumns = TxColumns(hash: Option<string>, time: Option<Time>, relayer: Option<string>,
                                 gasCost: Option<int>)

  datatype WriteAckColumns = WriteAckColumns(
    hash: Option<string>,
    time: Option<Time>,
    status: Option<WriteAckStatus>,
    finalizedTime: Option<Time>)

  /** The columns that the pipeline updates. */
  datatype Columns = Columns(
    status: RelayStatus,
    sourceTxFinalizedTime: Option<Time>,
    recv: TxColumns,
    writeAck: WriteAckColumns,
    ack: TxColumns,
    timeout: TxColumns)

  const NO_TX := TxColumns(None, None, None, None)

  /** A freshly inserted row holds only its packet. */
  const NO_COLUMNS := Columns(PENDING, None, NO_TX, WriteAckColumns(None, None, None, None), NO_TX, NO_TX)

  datatype Row = Row(packet: Packet, cols: Columns) {
    function Key(): RowKey { KeyOf(packet) }
  }

  /** The in-memory copy of a row; an error is kept only as its presence. */
  datatype Transfer = Transfer(packet: Packet, cols: Columns, errored: bool) {

    /** The sequence as the in-memory copy holds it. */
    function Sequence(): UInt32 { ToUInt32(packet.sequence) }

    /** The key of the transfer's row; `UpdatesHitOwnRow` says that updates use it. */
    function Key(): RowKey { KeyOf(packet) }

    predicate HasRecv() { cols.recv.hash.Some? }
    predicate HasWriteAck() { cols.writeAck.hash.Some? }
    predicate HasAck() { cols.ack.hash.Some? }
    predicate HasTimeout() { cols.timeout.hash.Some? }

    /** Strictly after the deadline, as the clock reads now. */
    predicate IsTimedOut(now: Time) { packet.timeoutTimestamp < now }

    predicate IsComplete(opts: Options) {
      if errored then false
      else if HasTimeout() then true
      else if !HasRecv() || !HasWriteAck() then false
      else if HasAck() then true
      else if cols.writeAck.status.None? then false
      else !opts.Relays(cols.writeAck.status.value)
    }
  }

  /** NewIBCV2Transfer. */
  function Load(row: Row): Transfer { Transfer(row.packet, row.cols, false) }

  /** The key an update is made with: the unsigned sequence cast back to the column's type. */
  function UpdateKey(t: Transfer): RowKey {
    RowKey(t.packet.sourceChainID, t.packet.sourceClientID, ToInt32(t.Sequence()))
  }

  /** Updates made for a loaded transfer hit the row it was loaded from, and no other. */
  lemma UpdatesHitOwnRow(row: Row)
    ensures UpdateKey(Load(row)) == Load(row).Key() == row.Key()
  {
  }

  /** The part of the pipeline options that decides anything modelled here; a gas calculator
      stage is only built when the chain's gas token is configured. */
  datatype Options = Options(relaySuccessAcks: bool, relayErrorAcks: bool, sourceGas: bool, destinationGas: bool) {

    /** An undecodable acknowledgement counts as an error acknowledgement. */
    predicate Relays(s: WriteAckStatus) {
      match s
      case SUCCESS => relaySuccessAcks
      case ERROR => relayErrorAcks
      case UNKNOWN => relayErrorAcks
    }
  }
}
