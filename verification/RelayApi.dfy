/** The relayer API: Relay inserts a row for every packet sent in a tx, Status reports on rows. */
module RelayApi {
  import opened Transfers
  import opened Processors
  import Dispatch

  datatype TransferState = TRANSFER_STATE_PENDING | TRANSFER_STATE_COMPLETE | TRANSFER_STATE_FAILED

  function MapDBStatusToProto(s: RelayStatus): TransferState {
    match s
    case COMPLETE_WITH_ACK => TRANSFER_STATE_COMPLETE
    case COMPLETE_WITH_TIMEOUT => TRANSFER_STATE_COMPLETE
    case COMPLETE_WITH_WRITE_ACK_SUCCESS => TRANSFER_STATE_COMPLETE
    case COMPLETE_WITH_WRITE_ACK_ERROR => TRANSFER_STATE_COMPLETE
    case FAILED => TRANSFER_STATE_FAILED
    case _ => TRANSFER_STATE_PENDING
  }

  /** A packet as found in the tx. */
  datatype SentPacket = SentPacket(
    sequence: UInt64,
    sourceClient: string,
    destinationClient: string,
    timeoutTimestamp: Time)

  /** Who sent the tx, as far as Relay asks. */
  datatype Sender = NotAsked | Unknown | Allowed | Blacklisted

  /** One call of Relay and everything the world tells it. */
  datatype Call = Call(
    chainID: string,
    txHash: string,
    submissionSaved: bool,
    hasClient: bool,
    sender: Sender,
    packets: Option<seq<SentPacket>>,
    failAt: Option<nat>)              // the packet whose insert fails other than as a duplicate, if one does

  /** The counterparty chain of each configured client. */
  type Clients = map<(string, string), string>

  /** PLAIN_ERROR is an error without a code of its own. */
  datatype Code = OK | INVALID_ARGUMENT | INTERNAL | PLAIN_ERROR

  /** The row inserted for a packet. */
  function RowFor(call: Call, destination: string, p: SentPacket): Row {
    Row(Packet(call.chainID, destination, call.txHash, ToInt32(p.sequence), p.sourceClient, p.destinationClient,
               p.timeoutTimestamp), NO_COLUMNS)
  }

  function KeyFor(chainID: string, p: SentPacket): RowKey {
    RowKey(chainID, p.sourceClient, ToInt32(p.sequence))
  }

  predicate Known(clients: Clients, call: Call, p: SentPacket) { (call.chainID, p.sourceClient) in clients }

  /** A packet whose client is unknown, or whose key is taken, is skipped. */
  function WithPacket(rows: map<RowKey, Row>, clients: Clients, call: Call, p: SentPacket): map<RowKey, Row> {
    if !Known(clients, call, p) || KeyFor(call.chainID, p) in rows then rows
    else rows[KeyFor(call.chainID, p) := RowFor(call, clients[(call.chainID, p.sourceClient)], p)]
  }

  /** The rows after the first n packets. */
  function WithPackets(rows: map<RowKey, Row>, clients: Clients, call: Call, packets: seq<SentPacket>, n: nat)
    : map<RowKey, Row>
    requires n <= |packets|
  {
    if n == 0 then rows
    else WithPacket(WithPackets(rows, clients, call, packets, n - 1), clients, call, packets[n - 1])
  }

  /** The call gets as far as its packets. */
  predicate ReachesPackets(call: Call) {
    && call.txHash != "" && call.chainID != "" && call.submissionSaved && call.hasClient
    && (call.sender.NotAsked? || call.sender.Allowed?) && call.packets.Some?
  }

  /** The insert of some packet fails. */
  predicate InsertFails(clients: Clients, call: Call)
    requires call.packets.Some?
  {
    && call.failAt.Some? && call.failAt.value < |call.packets.value|
    && Known(clients, call, call.packets.value[call.failAt.value])
  }

  /** How many of the packets are seen to. */
  function Handled(clients: Clients, call: Call): (n: nat)
    requires call.packets.Some?
    ensures n <= |call.packets.value|
  {
    if InsertFails(clients, call) then call.failAt.value else |call.packets.value|
  }

  function Relayed(rows: map<RowKey, Row>, clients: Clients, call: Call): map<RowKey, Row> {
    if ReachesPackets(call) then WithPackets(rows, clients, call, call.packets.value, Handled(clients, call)) else rows
  }

  method Relay(db: Storage, clients: Clients, call: Call) returns (code: Code)
    modifies db
    ensures code == OK <==> ReachesPackets(call) && !InsertFails(clients, call)
    ensures code == INVALID_ARGUMENT <==>
            || call.txHash == "" || call.chainID == ""
            || (call.submissionSaved && (!call.hasClient || call.sender.Blacklisted?))
    ensures code == PLAIN_ERROR <==>
            call.txHash != "" && call.chainID != "" && call.submissionSaved && call.hasClient && call.sender.Unknown?
    ensures db.rows == Relayed(old(db.rows), clients, call)
  {
    hide WithPacket;
    if call.txHash == "" || call.chainID == "" { return INVALID_ARGUMENT; }
    if !call.submissionSaved { return INTERNAL; }
    if !call.hasClient { return INVALID_ARGUMENT; }
    match call.sender {
      case Unknown => return PLAIN_ERROR;
      case Blacklisted => return INVALID_ARGUMENT;
      case _ =>
    }
    if call.packets.None? { return INTERNAL; }
    var packets, i := call.packets.value, 0;
    while i < |packets|
      invariant 0 <= i <= |packets| && db.rows == WithPackets(old(db.rows), clients, call, packets, i)
      invariant InsertFails(clients, call) ==> i <= call.failAt.value
    {
      var p := packets[i];
      if Known(clients, call, p) {
        if call.failAt == Some(i) { return INTERNAL; }
        InsertTransfer(db, clients, call, p);
      } else {
        SkipUnknown(db.rows, clients, call, p);
      }
      i := i + 1;
    }
    return OK;
  }

  /** InsertIBCV2Transfer; a duplicate key changes nothing. */
  method InsertTransfer(db: Storage, clients: Clients, call: Call, p: SentPacket)
    requires Known(clients, call, p)
    modifies db
    ensures db.rows == WithPacket(old(db.rows), clients, call, p)
    ensures var k := KeyFor(call.chainID, p);
            k in db.rows && if k in old(db.rows) then db.rows == old(db.rows) else IsRowOf(db.rows[k], clients, call, p)
  {
    RowForIs(clients, call, p);
    var row := RowFor(call, clients[(call.chainID, p.sourceClient)], p);
    if row.Key() !in db.rows {
      db.rows := db.rows[row.Key() := row];
    }
  }

  lemma SkipUnknown(rows: map<RowKey, Row>, clients: Clients, call: Call, p: SentPacket)
    requires !Known(clients, call, p)
    ensures WithPacket(rows, clients, call, p) == rows
  {
  }

  /** Rows that are there stay as they are. */
  predicate KeepsRows(before: map<RowKey, Row>, after: map<RowKey, Row>) {
    forall k :: k in before ==> k in after && after[k] == before[k]
  }

  lemma {:induction false} PacketsHaveRows(rows: map<RowKey, Row>, clients: Clients, call: Call,
                                           packets: seq<SentPacket>, n: nat)
    requires n <= |packets|
    ensures KeepsRows(rows, WithPackets(rows, clients, call, packets, n))
    ensures forall i :: 0 <= i < n && Known(clients, call, packets[i]) ==>
              KeyFor(call.chainID, packets[i]) in WithPackets(rows, clients, call, packets, n)
  {
    if n != 0 {
      PacketsHaveRows(rows, clients, call, packets, n - 1);
    }
  }

  /** The first of the first n packets with the key of packet i, which the new row is for. */
  predicate FirstWithKey(clients: Clients, call: Call, packets: seq<SentPacket>, i: nat)
    requires i < |packets|
  {
    && Known(clients, call, packets[i])
    && forall j :: 0 <= j < i ==> KeyFor(call.chainID, packets[j]) != KeyFor(call.chainID, packets[i])
  }

  /** The row is the packet's, field by field: the source chain, tx and destination chain of the call, the rest from
      the packet, and nothing recorded yet. */
  predicate IsRowOf(row: Row, clients: Clients, call: Call, p: SentPacket) {
    && row.packet.sourceChainID == call.chainID
    && (call.chainID, p.sourceClient) in clients
    && row.packet.destinationChainID == clients[(call.chainID, p.sourceClient)]
    && row.packet.sourceTxHash == call.txHash
    && ToUInt32(row.packet.sequence) == p.sequence % 0x1_0000_0000
    && row.packet.sourceClientID == p.sourceClient
    && row.packet.destinationClientID == p.destinationClient
    && row.packet.timeoutTimestamp == p.timeoutTimestamp
    && row.cols.status == PENDING && row.cols.sourceTxFinalizedTime == None
    && row.cols.recv == row.cols.ack == row.cols.timeout == TxColumns(None, None, None, None)
    && row.cols.writeAck == WriteAckColumns(None, None, None, None)
  }

  lemma RowForIs(clients: Clients, call: Call, p: SentPacket)
    requires Known(clients, call, p)
    ensures IsRowOf(RowFor(call, clients[(call.chainID, p.sourceClient)], p), clients, call, p)
  {
    SequenceRoundTrip(p.sequence, ToInt32(p.sequence));
  }

  /** Every new row is the row of the first packet with its key, field by field. */
  lemma {:induction false} NewRowsAreForPackets(rows: map<RowKey, Row>, clients: Clients, call: Call,
                                                packets: seq<SentPacket>, n: nat, k: RowKey)
    requires n <= |packets| && k !in rows && k in WithPackets(rows, clients, call, packets, n)
    ensures exists i :: 0 <= i < n && FirstWithKey(clients, call, packets, i) && KeyFor(call.chainID, packets[i]) == k
              && IsRowOf(WithPackets(rows, clients, call, packets, n)[k], clients, call, packets[i])
  {
    hide IsRowOf, RowFor;
    if k in WithPackets(rows, clients, call, packets, n - 1) {
      NewRowsAreForPackets(rows, clients, call, packets, n - 1, k);
    } else {
      PacketsHaveRows(rows, clients, call, packets, n - 1);
      forall j | 0 <= j < n - 1 ensures KeyFor(call.chainID, packets[j]) != k {
        SameClientSameKnown(clients, call, packets[j], packets[n - 1]);
      }
      assert FirstWithKey(clients, call, packets, n - 1);
      RowForIs(clients, call, packets[n - 1]);
    }
  }

  lemma SameClientSameKnown(clients: Clients, call: Call, p: SentPacket, q: SentPacket)
    ensures KeyFor(call.chainID, p) == KeyFor(call.chainID, q) ==> Known(clients, call, p) == Known(clients, call, q)
  {
  }

  /** The rows after the first n calls. */
  function AfterCalls(rows: map<RowKey, Row>, clients: Clients, calls: seq<Call>, n: nat): map<RowKey, Row>
    requires n <= |calls|
  {
    if n == 0 then rows else Relayed(AfterCalls(rows, clients, calls, n - 1), clients, calls[n - 1])
  }

  lemma {:induction false} CallsOnlyAdd(rows: map<RowKey, Row>, clients: Clients, calls: seq<Call>, m: nat, n: nat)
    requires m <= n <= |calls|
    ensures KeepsRows(AfterCalls(rows, clients, calls, m), AfterCalls(rows, clients, calls, n))
  {
    if m < n {
      CallsOnlyAdd(rows, clients, calls, m, n - 1);
      if ReachesPackets(calls[n - 1]) {
        var call := calls[n - 1];
        PacketsHaveRows(AfterCalls(rows, clients, calls, n - 1), clients, call, call.packets.value,
                        Handled(clients, call));
      }
    }
  }

  /** The row under k was inserted by the j-th call for its i-th packet. */
  ghost predicate InsertedBy(clients: Clients, calls: seq<Call>, j: nat, i: nat, k: RowKey, row: Row) {
    && j < |calls| && ReachesPackets(calls[j]) && i < |calls[j].packets.value|
    && KeyFor(calls[j].chainID, calls[j].packets.value[i]) == k
    && IsRowOf(row, clients, calls[j], calls[j].packets.value[i])
  }

  lemma {:induction false} NewRowsAreForCalls(rows: map<RowKey, Row>, clients: Clients, calls: seq<Call>, n: nat,
                                              k: RowKey)
    returns (j: nat, i: nat)
    requires n <= |calls| && k !in rows && k in AfterCalls(rows, clients, calls, n)
    ensures InsertedBy(clients, calls, j, i, k, AfterCalls(rows, clients, calls, n)[k])
  {
    hide IsRowOf, WithPackets, KeyFor, InsertFails;
    var before := AfterCalls(rows, clients, calls, n - 1);
    if k in before {
      j, i := NewRowsAreForCalls(rows, clients, calls, n - 1, k);
      CallsOnlyAdd(rows, clients, calls, n - 1, n);
    } else {
      var call := calls[n - 1];
      NewRowsAreForPackets(before, clients, call, call.packets.value, Handled(clients, call), k);
      j := n - 1;
      i :| 0 <= i < Handled(clients, call) && KeyFor(call.chainID, call.packets.value[i]) == k
           && IsRowOf(AfterCalls(rows, clients, calls, n)[k], clients, call, call.packets.value[i]);
    }
  }

  /** After any calls, whatever they and others met with, the n-th of which succeeded: every packet of its
      tx with a known client has a row, that row is the only one with the packet's key, it gives back the
      low 32 bits of the packet's sequence, and no earlier row has changed. If the row is new, one of the calls
      inserted it for one of its packets, with that packet's fields. */
  lemma RelayedPacketsHaveRows(rows: map<RowKey, Row>, clients: Clients, calls: seq<Call>, n: nat, p: SentPacket)
    requires 0 < n <= |calls| && ReachesPackets(calls[n - 1]) && !InsertFails(clients, calls[n - 1])
    requires p in calls[n - 1].packets.value && Known(clients, calls[n - 1], p)
    requires forall k :: k in rows ==> rows[k].Key() == k
    ensures KeepsRows(rows, AfterCalls(rows, clients, calls, |calls|))
    ensures var k, after := KeyFor(calls[n - 1].chainID, p), AfterCalls(rows, clients, calls, |calls|);
            && k in after && after[k].packet.sourceChainID == calls[n - 1].chainID
            && after[k].packet.sourceClientID == p.sourceClient
            && ToUInt32(after[k].packet.sequence) == p.sequence % 0x1_0000_0000
            && (p.sequence < 0x1_0000_0000 ==> Load(after[k]).Sequence() == p.sequence)
            && UpdateKey(Load(after[k])) == k
            && (k !in rows ==> exists j, i :: InsertedBy(clients, calls, j, i, k, after[k]))
  {
    hide WithPackets, Relayed, ReachesPackets, InsertFails, KeyFor;
    var call, before := calls[n - 1], AfterCalls(rows, clients, calls, n - 1);
    CallsOnlyAdd(rows, clients, calls, 0, |calls|);
    CallsOnlyAdd(rows, clients, calls, n, |calls|);
    HasRow(before, clients, call, p);
    RowsUnderTheirKeys(rows, clients, calls, |calls|);
    SequenceRoundTrip(p.sequence, ToInt32(p.sequence));
    RowOfKey(call.chainID, p, AfterCalls(rows, clients, calls, |calls|)[KeyFor(call.chainID, p)]);
    if KeyFor(call.chainID, p) !in rows {
      var j, i := NewRowsAreForCalls(rows, clients, calls, |calls|, KeyFor(call.chainID, p));
    }
  }

  lemma HasRow(rows: map<RowKey, Row>, clients: Clients, call: Call, p: SentPacket)
    requires ReachesPackets(call) && !InsertFails(clients, call) && p in call.packets.value && Known(clients, call, p)
    ensures KeyFor(call.chainID, p) in Relayed(rows, clients, call)
  {
    hide WithPackets;
    var packets := call.packets.value;
    PacketsHaveRows(rows, clients, call, packets, |packets|);
    var i :| 0 <= i < |packets| && packets[i] == p;
  }

  lemma RowOfKey(chainID: string, p: SentPacket, row: Row)
    requires row.Key() == KeyFor(chainID, p)
    ensures row.packet.sourceChainID == chainID && row.packet.sourceClientID == p.sourceClient
    ensures row.packet.sequence == ToInt32(p.sequence) && UpdateKey(Load(row)) == KeyFor(chainID, p)
  {
    UpdatesHitOwnRow(row);
  }

  lemma {:induction false} RowsUnderTheirKeys(rows: map<RowKey, Row>, clients: Clients, calls: seq<Call>, n: nat)
    requires n <= |calls| && forall k :: k in rows ==> rows[k].Key() == k
    ensures forall k :: k in AfterCalls(rows, clients, calls, n) ==> AfterCalls(rows, clients, calls, n)[k].Key() == k
  {
    if n != 0 {
      RowsUnderTheirKeys(rows, clients, calls, n - 1);
      if ReachesPackets(calls[n - 1]) {
        var call := calls[n - 1];
        PacketsUnderTheirKeys(AfterCalls(rows, clients, calls, n - 1), clients, call, call.packets.value,
                              Handled(clients, call));
      }
    }
  }

  lemma {:induction false} PacketsUnderTheirKeys(rows: map<RowKey, Row>, clients: Clients, call: Call,
                                                 packets: seq<SentPacket>, n: nat)
    requires n <= |packets| && forall k :: k in rows ==> rows[k].Key() == k
    ensures forall k :: k in WithPackets(rows, clients, call, packets, n) ==>
              WithPackets(rows, clients, call, packets, n)[k].Key() == k
  {
    if n != 0 {
      PacketsUnderTheirKeys(rows, clients, call, packets, n - 1);
    }
  }

  /** Two packets of one chain share a row exactly if they have the same client and the same low 32 bits of
      the sequence: below 2^32 only if they have the same sequence. */
  lemma KeysCollideExactly(chainID: string, p: SentPacket, q: SentPacket)
    ensures KeyFor(chainID, p) == KeyFor(chainID, q) <==>
            p.sourceClient == q.sourceClient && p.sequence % 0x1_0000_0000 == q.sequence % 0x1_0000_0000
    ensures p.sequence < 0x1_0000_0000 && q.sequence < 0x1_0000_0000 && KeyFor(chainID, p) == KeyFor(chainID, q)
            ==> p.sequence == q.sequence
  {
    SequenceRoundTrip(p.sequence, ToInt32(p.sequence));
    SequenceRoundTrip(q.sequence, ToInt32(q.sequence));
  }

  /** A row can be selected for dispatch exactly when Status reports it as pending. */
  lemma PendingIsUnfinished(s: RelayStatus)
    ensures MapDBStatusToProto(s) == TRANSFER_STATE_PENDING <==> Unfinished(s)
    ensures MapDBStatusToProto(s) == TRANSFER_STATE_FAILED <==> s == FAILED
  {
  }

  /** Inserting a packet's row is the step by which rows enter the relayer's state machine. */
  lemma PacketIsInsert(cfg: Dispatch.Config, s: Dispatch.System, clients: Clients, call: Call, p: SentPacket)
    requires ReachesPackets(call) && Known(clients, call, p) && KeyFor(call.chainID, p) !in s.table
    ensures var step := Dispatch.Insert(RowFor(call, clients[(call.chainID, p.sourceClient)], p));
            && IsRowOf(step.row, clients, call, p)
            && Dispatch.Enabled(cfg, s, step)
            && Dispatch.Apply(cfg, s, step) == s.(table := WithPacket(s.table, clients, call, p))
  {
    RowForIs(clients, call, p);
  }
}
