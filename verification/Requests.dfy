/** The request the batch processors send to the proof service: which source txs it names and which packet
    sequences it lists. */
module Requests {
  import opened Transfers

  /** A byte. */
  type Byte = x: int | 0 <= x < 256

  function Digit(c: char): Option<nat> {
    if '0' <= c <= '9' then Some(c as int - '0' as int)
    else if 'a' <= c <= 'f' then Some(c as int - 'a' as int + 10)
    else if 'A' <= c <= 'F' then Some(c as int - 'A' as int + 10)
    else None
  }

  /** hex.DecodeString. */
  function HexDecode(s: string): (r: Option<seq<Byte>>)
    ensures r.Some? ==> 2 * |r.value| == |s|
  {
    if s == [] then Some([])
    else if |s| == 1 || Digit(s[0]).None? || Digit(s[1]).None? then None
    else
      var rest := HexDecode(s[2..]);
      if rest.None? then None
      else DigitBound(s[0]); DigitBound(s[1]);
           Some([(16 * Digit(s[0]).value + Digit(s[1]).value) as Byte] + rest.value)
  }

  lemma DigitBound(c: char)
    ensures Digit(c).Some? ==> Digit(c).value < 16
  {
  }

  predicate Digits(s: string) { forall i :: 0 <= i < |s| ==> Digit(s[i]).Some? }

  /** Exactly the strings of an even number of digits decode, each two digits to the byte they stand for. */
  lemma {:induction false} HexDecodes(s: string)
    ensures HexDecode(s).Some? <==> |s| % 2 == 0 && Digits(s)
    ensures HexDecode(s).Some? ==>
              forall i :: 0 <= i < |HexDecode(s).value| ==>
                HexDecode(s).value[i] == 16 * Digit(s[2 * i]).value + Digit(s[2 * i + 1]).value
  {
    hide Digit;
    if |s| >= 2 {
      HexDecodes(s[2..]);
      assert Digits(s) <==> Digit(s[0]).Some? && Digit(s[1]).Some? && Digits(s[2..]) by {
        assert forall i :: 0 <= i < |s| - 2 ==> s[2..][i] == s[i + 2];
        assert forall i :: 2 <= i < |s| ==> s[i] == s[2..][i - 2];
      }
      if HexDecode(s).Some? {
        var rest := HexDecode(s[2..]).value;
        forall i | 0 <= i < |HexDecode(s).value|
          ensures HexDecode(s).value[i] == 16 * Digit(s[2 * i]).value + Digit(s[2 * i + 1]).value
        {
          if i > 0 {
            assert HexDecode(s).value[i] == rest[i - 1];
            assert s[2..][2 * (i - 1)] == s[2 * i] && s[2..][2 * (i - 1) + 1] == s[2 * i + 1];
          }
        }
      }
    }
  }

  function TrimPrefix(s: string): string {
    if "0x" <= s then s[2..] else s
  }

  /** The id under which a tx hash is requested. */
  function TxID(hash: string): Option<seq<Byte>> { HexDecode(TrimPrefix(hash)) }

  function Lower(c: char): char {
    if 'A' <= c <= 'F' then (c as int + 32) as char else c
  }

  function Lowered(s: string): (r: string)
    ensures |r| == |s|
    ensures forall i :: 0 <= i < |s| ==> r[i] == Lower(s[i])
  {
    seq(|s|, i requires 0 <= i < |s| => Lower(s[i]))
  }

  lemma DigitsAgree(c: char, d: char)
    requires Digit(c).Some? && Digit(d).Some?
    ensures Digit(c) == Digit(d) <==> Lower(c) == Lower(d)
  {
  }

  /** Two decodable strings decode to the same bytes exactly if they are the same up to letter case. */
  lemma {:induction false} SameBytes(s: string, t: string)
    requires HexDecode(s).Some? && HexDecode(t).Some?
    ensures HexDecode(s) == HexDecode(t) <==> Lowered(s) == Lowered(t)
  {
    if s == [] || t == [] {
      assert (s == [] && t == []) <==> HexDecode(s) == HexDecode(t);
    } else {
      SameBytes(s[2..], t[2..]);
      DigitsAgree(s[0], t[0]);
      DigitsAgree(s[1], t[1]);
      SamePair(s, t);
      assert Lowered(s) == [Lower(s[0]), Lower(s[1])] + Lowered(s[2..]);
      assert Lowered(t) == [Lower(t[0]), Lower(t[1])] + Lowered(t[2..]);
      assert Lowered(s)[2..] == Lowered(s[2..]) && Lowered(t)[2..] == Lowered(t[2..]);
    }
  }

  /** Two decodable tx hashes name the same tx exactly if, without the prefix, they are the same up to letter
      case. */
  lemma SameTx(a: string, b: string)
    requires TxID(a).Some? && TxID(b).Some?
    ensures TxID(a) == TxID(b) <==> Lowered(TrimPrefix(a)) == Lowered(TrimPrefix(b))
  {
    SameBytes(TrimPrefix(a), TrimPrefix(b));
  }

  lemma SamePair(s: string, t: string)
    requires s != [] && t != [] && HexDecode(s).Some? && HexDecode(t).Some?
    ensures HexDecode(s) == HexDecode(t) <==>
            Digit(s[0]) == Digit(t[0]) && Digit(s[1]) == Digit(t[1]) && HexDecode(s[2..]) == HexDecode(t[2..])
  {
    DigitBound(s[0]);
    DigitBound(s[1]);
    DigitBound(t[0]);
    DigitBound(t[1]);
    var x, y := HexDecode(s).value, HexDecode(t).value;
    assert x[1..] == HexDecode(s[2..]).value && y[1..] == HexDecode(t[2..]).value;
    if x == y {
      assert x[0] == y[0];
    }
  }

  /** What a batch processor's loop sees of a transfer: the tx hash it needs, if there is one, what the
      loop remembers after taking that hash, and the packet sequence. */
  datatype Item = Item(hash: Option<string>, mark: string, sequence: nat)

  datatype Request = Request(txIDs: seq<seq<Byte>>, sequences: seq<nat>, seen: set<string>, listed: seq<bool>)

  function Add(r: Request, item: Item): Request {
    if item.hash.None? then r.(listed := r.listed + [false])
    else if item.hash.value in r.seen then
      r.(sequences := r.sequences + [item.sequence], listed := r.listed + [true])
    else match TxID(item.hash.value)
         case None => r.(listed := r.listed + [false])
         case Some(id) =>
           Request(r.txIDs + [id], r.sequences + [item.sequence], r.seen + {item.mark}, r.listed + [true])
  }

  /** The request after the first n items. */
  function Build(items: seq<Item>, n: nat): (r: Request)
    requires n <= |items|
    ensures |r.listed| == n
  {
    if n == 0 then Request([], [], {}, []) else Add(Build(items, n - 1), items[n - 1])
  }

  predicate Decodable(item: Item) { item.hash.Some? && TxID(item.hash.value).Some? }

  function ID(item: Item): seq<Byte>
    requires Decodable(item)
  {
    TxID(item.hash.value).value
  }

  /** The sequences of the chosen items among the first n, in order. */
  function Chosen(items: seq<Item>, listed: seq<bool>, n: nat): seq<nat>
    requires n <= |items| && n <= |listed|
  {
    if n == 0 then []
    else Chosen(items, listed, n - 1) + (if listed[n - 1] then [items[n - 1].sequence] else [])
  }

  lemma {:induction false} ChosenExtends(items: seq<Item>, listed: seq<bool>, more: seq<bool>, n: nat)
    requires n <= |items| && n <= |listed|
    ensures Chosen(items, listed + more, n) == Chosen(items, listed, n)
  {
    if n != 0 {
      ChosenExtends(items, listed, more, n - 1);
    }
  }

  /** The request lists exactly the sequences of the transfers that were not given an error. */
  lemma {:induction false} SequencesAreListed(items: seq<Item>, n: nat)
    requires n <= |items|
    ensures Build(items, n).sequences == Chosen(items, Build(items, n).listed, n)
  {
    if n != 0 {
      SequencesAreListed(items, n - 1);
      var r := Build(items, n - 1);
      var last := Build(items, n).listed[n - 1];
      assert Build(items, n).listed == r.listed + [last];
      ChosenExtends(items, r.listed, [last], n - 1);
    }
  }

  /** The ids of the items for which take holds, in order. */
  function Taken(items: seq<Item>, take: seq<bool>, n: nat): seq<seq<Byte>>
    requires n <= |items| && n <= |take|
    requires forall i :: 0 <= i < n && take[i] ==> Decodable(items[i])
  {
    if n == 0 then []
    else Taken(items, take, n - 1) + (if take[n - 1] then [ID(items[n - 1])] else [])
  }

  /** Ack requests remember the hash they took. */
  predicate RemembersHash(items: seq<Item>) {
    forall i :: 0 <= i < |items| && items[i].hash.Some? ==> items[i].mark == items[i].hash.value
  }

  /** The first of its hash among the items. */
  predicate First(items: seq<Item>, i: nat)
    requires i < |items|
  {
    forall j :: 0 <= j < i ==> items[j].hash != items[i].hash
  }

  function FirstDecodable(items: seq<Item>): (take: seq<bool>)
    ensures |take| == |items|
    ensures forall i :: 0 <= i < |take| ==> take[i] == (Decodable(items[i]) && First(items, i))
  {
    seq(|items|, i requires 0 <= i < |items| => Decodable(items[i]) && First(items, i))
  }

  /** The tx of hash h was taken for one of the first n items. */
  predicate Seen(items: seq<Item>, n: nat, h: string)
    requires n <= |items|
  {
    exists i :: 0 <= i < n && Decodable(items[i]) && items[i].hash == Some(h)
  }

  lemma SeenStep(items: seq<Item>, n: nat, h: string)
    requires 0 < n <= |items|
    ensures Seen(items, n, h) <==> Seen(items, n - 1, h) || (Decodable(items[n - 1]) && items[n - 1].hash == Some(h))
  {
    hide Decodable;
  }

  lemma {:induction false} AckSeen(items: seq<Item>, n: nat, h: string)
    requires n <= |items| && RemembersHash(items)
    ensures h in Build(items, n).seen <==> Seen(items, n, h)
  {
    hide TxID, Seen;
    if n != 0 {
      AckSeen(items, n - 1, h);
      SeenStep(items, n, h);
    } else {
      NoneSeen(items, h);
    }
  }

  lemma NoneSeen(items: seq<Item>, h: string)
    ensures !Seen(items, 0, h)
  {
  }

  lemma SeenIsNotFirst(items: seq<Item>, n: nat)
    requires n < |items| && items[n].hash.Some?
    ensures Seen(items, n, items[n].hash.value) <==> Decodable(items[n]) && !First(items, n)
  {
    hide TxID;
  }

  /** An ack request lists every transfer whose write ack hash is there and decodable and no other, and
      names the tx of each hash once: where the hash first comes up. */
  lemma {:induction false} AckRequest(items: seq<Item>, n: nat)
    requires n <= |items| && RemembersHash(items)
    ensures forall i :: 0 <= i < n ==> Build(items, n).listed[i] == Decodable(items[i])
    ensures Build(items, n).txIDs == Taken(items, FirstDecodable(items), n)
  {
    hide Build, Add, Decodable, First, ID;
    if n == 0 {
      NothingBuilt(items);
    } else {
      AckRequest(items, n - 1);
      AckStep(items, n);
    }
  }

  lemma NothingBuilt(items: seq<Item>)
    ensures Build(items, 0) == Request([], [], {}, [])
  {
  }

  /** What the loop adds to an ack request for the n-th item. */
  lemma AckStep(items: seq<Item>, n: nat)
    requires 0 < n <= |items| && RemembersHash(items)
    ensures var r, x := Build(items, n - 1), items[n - 1];
            && Build(items, n).listed == r.listed + [Decodable(x)]
            && Build(items, n).txIDs == r.txIDs + (if FirstDecodable(items)[n - 1] then [ID(x)] else [])
  {
    hide TxID, Seen, First;
    var r, x := Build(items, n - 1), items[n - 1];
    assert Build(items, n) == Add(r, x);
    assert r.txIDs + [] == r.txIDs;
    if x.hash.Some? {
      AckSeen(items, n - 1, x.hash.value);
      SeenIsNotFirst(items, n - 1);
    }
  }

  /** Recv and timeout requests remember the source chain instead. */
  predicate RemembersChain(items: seq<Item>, chain: string) {
    forall i :: 0 <= i < |items| ==> items[i].hash.Some? && items[i].mark == chain
  }

  /** The only hash that is ever recognised is one that spells the chain's id, once any tx was taken. */
  predicate TakenForChain(items: seq<Item>, chain: string, i: nat)
    requires i < |items|
  {
    items[i].hash == Some(chain) && AnyDecodable(items, i)
  }

  predicate AnyDecodable(items: seq<Item>, n: nat)
    requires n <= |items|
  {
    exists j :: 0 <= j < n && Decodable(items[j])
  }

  lemma AnyDecodableStep(items: seq<Item>, n: nat)
    requires 0 < n <= |items|
    ensures AnyDecodable(items, n) <==> AnyDecodable(items, n - 1) || Decodable(items[n - 1])
  {
    hide Decodable;
  }

  lemma NoneDecodable(items: seq<Item>)
    ensures !AnyDecodable(items, 0)
  {
  }

  function SourceTakes(items: seq<Item>, chain: string): (take: seq<bool>)
    ensures |take| == |items|
    ensures forall i :: 0 <= i < |take| ==> take[i] == (Decodable(items[i]) && !TakenForChain(items, chain, i))
  {
    seq(|items|, i requires 0 <= i < |items| => Decodable(items[i]) && !TakenForChain(items, chain, i))
  }

  /** A recv or timeout request names a source tx once for every transfer in it; transfers are listed
      exactly if their hash is decodable, or is taken for the chain. */
  lemma {:induction false} SourceRequest(items: seq<Item>, chain: string, n: nat)
    requires n <= |items| && RemembersChain(items, chain)
    ensures forall i :: 0 <= i < n ==>
              Build(items, n).listed[i] == (Decodable(items[i]) || TakenForChain(items, chain, i))
    ensures Build(items, n).seen == if AnyDecodable(items, n) then {chain} else {}
    ensures Build(items, n).txIDs == Taken(items, SourceTakes(items, chain), n)
  {
    hide Build, Add, Decodable, ID, AnyDecodable;
    if n == 0 {
      NothingBuilt(items);
      NoneDecodable(items);
    } else {
      SourceRequest(items, chain, n - 1);
      SourceStep(items, chain, n);
      AnyDecodableStep(items, n);
    }
  }

  /** What the loop adds to a recv or timeout request for the n-th item. */
  lemma SourceStep(items: seq<Item>, chain: string, n: nat)
    requires 0 < n <= |items| && RemembersChain(items, chain)
    requires Build(items, n - 1).seen == if AnyDecodable(items, n - 1) then {chain} else {}
    ensures var r, x := Build(items, n - 1), items[n - 1];
            && Build(items, n).listed == r.listed + [Decodable(x) || TakenForChain(items, chain, n - 1)]
            && Build(items, n).txIDs == r.txIDs + (if SourceTakes(items, chain)[n - 1] then [ID(x)] else [])
            && Build(items, n).seen == if AnyDecodable(items, n - 1) || Decodable(x) then {chain} else {}
  {
    hide TxID, AnyDecodable;
    var r, x := Build(items, n - 1), items[n - 1];
    assert Build(items, n) == Add(r, x);
    assert r.txIDs + [] == r.txIDs;
  }

  predicate Distinct(ids: seq<seq<Byte>>) {
    forall i, j :: 0 <= i < j < |ids| ==> ids[i] != ids[j]
  }

  /** Two chosen items that need the same tx. */
  predicate Clash(items: seq<Item>, take: seq<bool>, i: nat, j: nat)
    requires j < |items| && j < |take|
  {
    && i < j && take[i] && take[j] && Decodable(items[i]) && Decodable(items[j])
    && ID(items[i]) == ID(items[j])
  }

  lemma {:induction false} TakenMembers(items: seq<Item>, take: seq<bool>, n: nat, id: seq<Byte>)
    requires n <= |items| && n <= |take|
    requires forall i :: 0 <= i < n && take[i] ==> Decodable(items[i])
    ensures id in Taken(items, take, n) <==> exists i :: 0 <= i < n && take[i] && ID(items[i]) == id
  {
    hide ID, Decodable;
    if n != 0 {
      TakenMembers(items, take, n - 1, id);
      var before := Taken(items, take, n - 1);
      if take[n - 1] {
        assert Taken(items, take, n) == before + [ID(items[n - 1])];
        assert id in before + [ID(items[n - 1])] <==> id in before || id == ID(items[n - 1]);
      }
    }
  }

  /** The ids taken are distinct exactly if no two of the chosen items need the same tx. */
  lemma {:induction false} TakenDistinct(items: seq<Item>, take: seq<bool>, n: nat)
    requires n <= |items| && n <= |take|
    requires forall i :: 0 <= i < n && take[i] ==> Decodable(items[i])
    ensures Distinct(Taken(items, take, n)) <==> forall i, j :: 0 <= i < j < n ==> !Clash(items, take, i, j)
  {
    hide ID, Decodable;
    if n != 0 {
      var m := n - 1;
      TakenDistinct(items, take, m);
      var before := Taken(items, take, m);
      if take[m] {
        TakenMembers(items, take, m, ID(items[m]));
        DistinctAppend(before, ID(items[m]));
        assert Taken(items, take, n) == before + [ID(items[m])];
        if ID(items[m]) in before {
          var i :| 0 <= i < m && take[i] && ID(items[i]) == ID(items[m]);
          assert Clash(items, take, i, m);
        } else {
          assert forall i :: 0 <= i < m ==> !Clash(items, take, i, m);
        }
      } else {
        assert Taken(items, take, n) == before;
        assert forall i :: 0 <= i < m ==> !Clash(items, take, i, m);
      }
    }
  }

  lemma DistinctAppend(ids: seq<seq<Byte>>, id: seq<Byte>)
    ensures Distinct(ids + [id]) <==> Distinct(ids) && id !in ids
  {
    var all := ids + [id];
    if Distinct(all) {
      forall i, j | 0 <= i < j < |ids| ensures ids[i] != ids[j] {
        assert all[i] != all[j];
      }
      forall i | 0 <= i < |ids| ensures ids[i] != id {
        assert all[i] != all[|ids|];
      }
    }
  }

  /** Two items whose different hashes spell the same tx: they differ in the prefix or in letter case. */
  predicate SpelledTwice(items: seq<Item>, i: nat, j: nat)
    requires i < |items| && j < |items|
  {
    && Decodable(items[i]) && Decodable(items[j]) && items[i].hash != items[j].hash
    && Lowered(TrimPrefix(items[i].hash.value)) == Lowered(TrimPrefix(items[j].hash.value))
  }

  lemma SpelledTwiceIs(items: seq<Item>, i: nat, j: nat)
    requires i < |items| && j < |items|
    ensures SpelledTwice(items, i, j) <==>
            Decodable(items[i]) && Decodable(items[j]) && ID(items[i]) == ID(items[j]) && items[i].hash != items[j].hash
  {
    hide TxID, Lowered, TrimPrefix;
    if Decodable(items[i]) && Decodable(items[j]) {
      SameTx(items[i].hash.value, items[j].hash.value);
    }
  }

  /** An ack request names no tx twice exactly if no two different hashes in it spell the same tx. */
  lemma AckTxsOnce(items: seq<Item>)
    requires RemembersHash(items)
    ensures Distinct(Build(items, |items|).txIDs) <==>
            forall i, j :: 0 <= i < j < |items| ==> !SpelledTwice(items, i, j)
  {
    hide Build, Taken, Distinct, Clash, SpelledTwice;
    var take, n := FirstDecodable(items), |items|;
    AckRequest(items, n);
    TakenDistinct(items, take, n);
    if i, j :| 0 <= i < j < n && SpelledTwice(items, i, j) {
      var p, q := SpellingClash(items, i, j);
    } else {
      forall i, j | 0 <= i < j < n ensures !Clash(items, take, i, j) {
        ClashSpelling(items, i, j);
      }
    }
  }

  lemma SpellingClash(items: seq<Item>, i: nat, j: nat) returns (p: nat, q: nat)
    requires i < j < |items| && SpelledTwice(items, i, j)
    ensures p < q < |items| && Clash(items, FirstDecodable(items), p, q)
  {
    hide SpelledTwice, TxID;
    SpelledTwiceIs(items, i, j);
    p, q := Earliest(items, i), Earliest(items, j);
    if q < p {
      p, q := q, p;
    }
  }

  lemma ClashSpelling(items: seq<Item>, i: nat, j: nat)
    requires i < j < |items|
    ensures Clash(items, FirstDecodable(items), i, j) ==> SpelledTwice(items, i, j)
  {
    hide Decodable, ID, SpelledTwice;
    SpelledTwiceIs(items, i, j);
  }

  /** Where the hash of an item first comes up. */
  ghost function Earliest(items: seq<Item>, i: nat): (j: nat)
    requires i < |items|
    ensures j <= i && items[j].hash == items[i].hash && First(items, j)
  {
    if First(items, i) then i
    else
      var j :| 0 <= j < i && items[j].hash == items[i].hash;
      Earliest(items, j)
  }

  /** The tx of every transfer an ack request lists is among those it names. */
  lemma AckRequestCovers(items: seq<Item>, i: nat)
    requires RemembersHash(items) && i < |items| && Build(items, |items|).listed[i]
    ensures Decodable(items[i]) && ID(items[i]) in Build(items, |items|).txIDs
  {
    var n, e := |items|, Earliest(items, i);
    AckRequest(items, n);
    TakenMembers(items, FirstDecodable(items), n, ID(items[i]));
    assert FirstDecodable(items)[e] && ID(items[e]) == ID(items[i]);
  }

  /** The tx of every transfer that a recv or timeout request lists is among those it names, unless its hash is taken
      for the chain. */
  lemma SourceRequestCovers(items: seq<Item>, chain: string, i: nat)
    requires RemembersChain(items, chain) && i < |items| && Build(items, |items|).listed[i]
    requires !TakenForChain(items, chain, i)
    ensures Decodable(items[i]) && ID(items[i]) in Build(items, |items|).txIDs
  {
    hide ID, Decodable;
    SourceRequest(items, chain, |items|);
    TakenMembers(items, SourceTakes(items, chain), |items|, ID(items[i]));
  }

  /** A recv or timeout request names no tx twice exactly if no two of its decodable transfers were sent in
      the same tx; a transfer whose hash is taken for the chain is not asked about. */
  lemma SourceTxsOnce(items: seq<Item>, chain: string)
    requires RemembersChain(items, chain)
    ensures Distinct(Build(items, |items|).txIDs) <==>
            forall i, j :: 0 <= i < j < |items| && Decodable(items[i]) && Decodable(items[j])
                           && !TakenForChain(items, chain, i) && !TakenForChain(items, chain, j)
                           ==> ID(items[i]) != ID(items[j])
  {
    hide ID, Decodable;
    var take, n := SourceTakes(items, chain), |items|;
    SourceRequest(items, chain, n);
    TakenDistinct(items, take, n);
    if i, j :| 0 <= i < j < n && Decodable(items[i]) && Decodable(items[j])
               && !TakenForChain(items, chain, i) && !TakenForChain(items, chain, j) && ID(items[i]) == ID(items[j]) {
      assert Clash(items, take, i, j);
    }
  }

  lemma OneByte()
    ensures TxID("0xab") == TxID("ab") == Some([171])
  {
    var hash, digits := "0xab", "ab";
    var prefix := "0x";
    assert prefix[0] != digits[0] && !(prefix <= digits);
    assert TrimPrefix(hash) == digits && TrimPrefix(digits) == digits;
    assert HexDecode(digits[2..]) == Some([]);
    assert Digit(digits[0]) == Some(10) && Digit(digits[1]) == Some(11);
    var id: seq<Byte> := [171];
    assert HexDecode(digits) == Some(id + []);
    assert id + [] == id;
  }

  lemma TwoBuilt(x: Item, y: Item)
    ensures Build([x, y], 2) == Add(Add(Request([], [], {}, []), x), y)
  {
    var items := [x, y];
    assert Build(items, 0) == Request([], [], {}, []);
    assert Build(items, 1) == Add(Build(items, 0), items[0]);
    assert Build(items, 2) == Add(Build(items, 1), items[1]);
  }

  /** Two packets sent in one tx: the recv request names the tx twice, the ack request would not. */
  lemma SourceTxTwice(chain: string)
    requires chain != "0xab"
    ensures Build([Item(Some("0xab"), chain, 1), Item(Some("0xab"), chain, 2)], 2).txIDs == [[171], [171]]
    ensures Build([Item(Some("0xab"), "0xab", 1), Item(Some("0xab"), "0xab", 2)], 2).txIDs == [[171]]
  {
    hide TxID;
    var hash := "0xab";
    OneByte();
    TwoBuilt(Item(Some(hash), chain, 1), Item(Some(hash), chain, 2));
    TwoBuilt(Item(Some(hash), hash, 1), Item(Some(hash), hash, 2));
  }

  /** Two spellings of one tx: even an ack request names it twice. */
  lemma AckTxTwice()
    ensures Build([Item(Some("0xab"), "0xab", 1), Item(Some("ab"), "ab", 2)], 2).txIDs == [[171], [171]]
  {
    hide TxID;
    var hash, other := "0xab", "ab";
    OneByte();
    assert |hash| != |other|;
    TwoBuilt(Item(Some(hash), hash, 1), Item(Some(other), other, 2));
  }
}
