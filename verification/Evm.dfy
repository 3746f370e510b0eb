/** Finality on an EVM chain, and the paths under which packet commitments and receipts are stored. */
module Evm {
  import opened Transfers
  import opened Requests

  /** Block numbers and header times survive the casts to int64. */
  type Height = x: int | 0 <= x < 0x8000_0000_0000_0000

  /** What the chain answers at one moment: the header time of every block up to the latest, and the
      number of the finalized one. */
  datatype Head = Head(times: seq<Time>, finalized: Height) {
    predicate Valid() {
      && finalized < |times| <= 0x8000_0000_0000_0000
      && forall i, j :: 0 <= i < j < |times| ==> times[i] <= times[j]
    }

    function Latest(): Height
      requires Valid()
    {
      |times| - 1
    }
  }

  /** The chain has moved on from h without a reorganisation. */
  predicate Later(h: Head, k: Head) {
    h.times <= k.times && h.finalized <= k.finalized
  }

  /** IsTxFinalized for a tx with a receipt in the given block. */
  function IsTxFinalized(h: Head, block: Height, offset: Option<UInt64>): bool
    requires h.Valid()
  {
    match offset
    case None => block <= h.finalized
    case Some(o) => h.Latest() >= block && var behind: UInt64 := h.Latest() - block; behind >= o
  }

  function IsTimestampFinalized(h: Head, timestamp: Time, offset: Option<UInt64>): bool
    requires h.Valid()
  {
    match offset
    case None => h.times[h.finalized] >= timestamp
    case Some(o) =>
      if h.Latest() < o then false
      else
        var height: UInt64 := h.Latest() - o;
        h.times[height] >= timestamp
  }

  /** Both verdicts in terms of the chain: a tx is final once its block is at or below the finalized one, or at least
      the offset below the latest; a timestamp once the finalized block, or the one that far below the latest, has
      reached it. */
  lemma FinalityIs(h: Head, block: Height, timestamp: Time, offset: UInt64)
    requires h.Valid()
    ensures IsTxFinalized(h, block, None) <==> block <= h.finalized
    ensures IsTxFinalized(h, block, Some(offset)) <==> block + offset <= |h.times| - 1
    ensures IsTimestampFinalized(h, timestamp, None) <==> timestamp <= h.times[h.finalized]
    ensures IsTimestampFinalized(h, timestamp, Some(offset)) <==>
            offset < |h.times| && timestamp <= h.times[|h.times| - 1 - offset]
  {
  }

  /** A timestamp is judged finalized exactly if some block whose txs are judged finalized has reached it. */
  lemma TimestampIsFinalBlock(h: Head, timestamp: Time, offset: Option<UInt64>)
    requires h.Valid()
    ensures IsTimestampFinalized(h, timestamp, offset) <==>
            exists b :: 0 <= b < |h.times| && IsTxFinalized(h, b, offset) && h.times[b] >= timestamp
  {
    match offset
    case None => assert h.times[h.finalized] >= timestamp ==> IsTxFinalized(h, h.finalized, offset);
    case Some(o) =>
      if h.Latest() >= o {
        var last := h.Latest() - o;
        assert h.times[last] >= timestamp ==> IsTxFinalized(h, last, offset);
        assert forall b :: 0 <= b < |h.times| && IsTxFinalized(h, b, offset) ==> h.times[b] <= h.times[last];
      }
  }

  /** Once a deadline is judged finalized, so is every tx of a block before it. */
  lemma FinalTimestampCoversEarlierTxs(h: Head, timestamp: Time, offset: Option<UInt64>, block: Height)
    requires h.Valid() && IsTimestampFinalized(h, timestamp, offset)
    requires block < |h.times| && h.times[block] < timestamp
    ensures IsTxFinalized(h, block, offset)
  {
    TimestampIsFinalBlock(h, timestamp, offset);
    var b :| 0 <= b < |h.times| && IsTxFinalized(h, b, offset) && h.times[b] >= timestamp;
    assert block < b;
  }

  /** Neither verdict is ever taken back. */
  lemma FinalityIsForGood(h: Head, k: Head, timestamp: Time, block: Height, offset: Option<UInt64>)
    requires h.Valid() && k.Valid() && Later(h, k)
    ensures IsTxFinalized(h, block, offset) ==> IsTxFinalized(k, block, offset)
    ensures IsTimestampFinalized(h, timestamp, offset) ==> IsTimestampFinalized(k, timestamp, offset)
  {
    if IsTimestampFinalized(h, timestamp, offset) {
      TimestampIsFinalBlock(h, timestamp, offset);
      var b :| 0 <= b < |h.times| && IsTxFinalized(h, b, offset) && h.times[b] >= timestamp;
      assert k.times[b] == h.times[b] && IsTxFinalized(k, b, offset);
      TimestampIsFinalBlock(k, timestamp, offset);
    }
  }

  /** The arguments of encodePacked; strings are their bytes. */
  datatype Value = Bytes(bytes: seq<Byte>) | Uint8(byte: Byte) | Str(text: seq<Byte>) | Other

  function Written(v: Value): seq<Byte>
    requires !v.Other?
  {
    match v
    case Bytes(b) => b
    case Uint8(b) => [b]
    case Str(s) => s
  }

  function Packed(values: seq<Value>, n: nat): Option<seq<Byte>>
    requires n <= |values|
  {
    if n == 0 then Some([])
    else
      var front := Packed(values, n - 1);
      if front.None? || values[n - 1].Other? then None else Some(front.value + Written(values[n - 1]))
  }

  lemma {:induction false} UnsupportedStays(values: seq<Value>, i: nat, n: nat)
    requires i <= n <= |values| && Packed(values, i).None?
    ensures Packed(values, n).None?
  {
    if i < n {
      UnsupportedStays(values, i, n - 1);
    }
  }

  method EncodePacked(values: seq<Value>) returns (r: Option<seq<Byte>>)
    ensures r == Packed(values, |values|)
    ensures r.None? <==> exists i :: 0 <= i < |values| && values[i].Other?
  {
    var buffer: seq<Byte> := [];
    var i := 0;
    while i < |values|
      invariant 0 <= i <= |values| && Packed(values, i) == Some(buffer)
      invariant forall j :: 0 <= j < i ==> !values[j].Other?
    {
      match values[i] {
        case Bytes(b) => buffer := buffer + b;
        case Uint8(b) => buffer := buffer + [b];
        case Str(s) => buffer := buffer + s;
        case Other =>
          UnsupportedStays(values, i + 1, |values|);
          return None;
      }
      i := i + 1;
    }
    return Some(buffer);
  }

  /** The n low bytes of x, most significant first. */
  function BigEndian(x: nat, n: nat): (bytes: seq<Byte>)
    ensures |bytes| == n
  {
    if n == 0 then [] else BigEndian(x / 256, n - 1) + [x % 256]
  }

  function Limit(n: nat): (l: nat)
    ensures l > 0
  {
    if n == 0 then 1 else 256 * Limit(n - 1)
  }

  /** The number that bytes stand for, the most significant first. */
  function Number(bytes: seq<Byte>): nat {
    if bytes == [] then 0 else bytes[0] * Limit(|bytes| - 1) + Number(bytes[1..])
  }

  lemma {:induction false} NumberLast(bytes: seq<Byte>, b: Byte)
    ensures Number(bytes + [b]) == 256 * Number(bytes) + b
  {
    if bytes == [] {
      assert [] + [b] == [b] && [b][1..] == [];
      assert Number([b]) == b * Limit(0) + Number([b][1..]);
    } else {
      NumberLast(bytes[1..], b);
      assert (bytes + [b])[1..] == bytes[1..] + [b];
      var n, first := |bytes|, bytes[0];
      assert Number(bytes + [b]) == first * Limit(n) + Number(bytes[1..] + [b]);
      assert first * (256 * Limit(n - 1)) == 256 * (first * Limit(n - 1));
    }
  }

  /** Written out big-endian, a sequence reads back as itself. */
  lemma {:induction false} BigEndianRoundTrip(x: nat, n: nat)
    requires x < Limit(n)
    ensures Number(BigEndian(x, n)) == x
  {
    if n != 0 {
      BigEndianRoundTrip(x / 256, n - 1);
      NumberLast(BigEndian(x / 256, n - 1), x % 256);
    }
  }

  lemma {:induction false} BigEndianInjective(x: nat, y: nat, n: nat)
    requires x < Limit(n) && y < Limit(n) && BigEndian(x, n) == BigEndian(y, n)
    ensures x == y
  {
    if n != 0 {
      var front, back := BigEndian(x / 256, n - 1), BigEndian(y / 256, n - 1);
      assert BigEndian(x, n)[..n - 1] == front && BigEndian(y, n)[..n - 1] == back;
      assert BigEndian(x, n)[n - 1] == x % 256 && BigEndian(y, n)[n - 1] == y % 256;
      BigEndianInjective(x / 256, y / 256, n - 1);
    }
  }

  /** A packet commitment path has kind 1, a packet receipt path kind 2. */
  function PathValues(client: seq<Byte>, kind: Byte, sequence: UInt64): seq<Value> {
    [Str(client), Uint8(kind), Bytes(BigEndian(sequence, 8))]
  }

  lemma PathIs(client: seq<Byte>, kind: Byte, sequence: UInt64)
    ensures Packed(PathValues(client, kind, sequence), 3) == Some(client + [kind] + BigEndian(sequence, 8))
  {
    var values := PathValues(client, kind, sequence);
    assert Packed(values, 0) == Some([]);
    assert [] + client == client;
    assert Packed(values, 1) == Some(client);
    assert Packed(values, 2) == Some(client + [kind]);
  }

  /** Two paths coincide only if client, kind and sequence all do. */
  lemma PathsAreInjective(client: seq<Byte>, kind: Byte, sequence: UInt64,
                          other: seq<Byte>, otherKind: Byte, otherSequence: UInt64)
    ensures Packed(PathValues(client, kind, sequence), 3) == Packed(PathValues(other, otherKind, otherSequence), 3)
            <==> client == other && kind == otherKind && sequence == otherSequence
  {
    PathIs(client, kind, sequence);
    PathIs(other, otherKind, otherSequence);
    var p, q := client + [kind] + BigEndian(sequence, 8), other + [otherKind] + BigEndian(otherSequence, 8);
    if p == q {
      var n := |client|;
      assert |p| == |q| && |other| == n;
      assert p[..n] == client && q[..n] == other && p[n] == kind && q[n] == otherKind;
      assert p[n + 1..] == BigEndian(sequence, 8) && q[n + 1..] == BigEndian(otherSequence, 8);
      EightBytes();
      BigEndianInjective(sequence, otherSequence, 8);
    }
  }

  /** IsPacketCommitted and IsPacketReceived look under these paths. */
  function CommitmentPath(client: seq<Byte>, sequence: UInt64): seq<Value> { PathValues(client, 1, sequence) }

  function ReceiptPath(client: seq<Byte>, sequence: UInt64): seq<Value> { PathValues(client, 2, sequence) }

  /** The path of a commitment is client, 1 and sequence, that of a receipt client, 2 and sequence; so no commitment
      path of one packet is a receipt path of another. */
  lemma KindsNeverCoincide(client: seq<Byte>, sequence: UInt64, other: seq<Byte>, otherSequence: UInt64)
    ensures Packed(CommitmentPath(client, sequence), 3) == Some(client + [1] + BigEndian(sequence, 8))
    ensures Packed(ReceiptPath(client, sequence), 3) == Some(client + [2] + BigEndian(sequence, 8))
    ensures Packed(CommitmentPath(client, sequence), 3) != Packed(ReceiptPath(other, otherSequence), 3)
  {
    PathIs(client, 1, sequence);
    PathIs(client, 2, sequence);
    PathsAreInjective(client, 1, sequence, other, 2, otherSequence);
  }

  lemma EightBytes()
    ensures Limit(8) == 0x1_0000_0000_0000_0000
  {
    assert Limit(2) == 0x1_0000;
    assert Limit(4) == 0x1_0000_0000;
    assert Limit(6) == 0x1_0000_0000_0000;
  }
}
