/** The price cache: which lookups share an entry, and what a lookup may be served. */
module Prices {
  import opened Transfers

  /** ReplaceAll of "/" by "//". */
  function Escape(s: string): string {
    if s == [] then [] else (if s[0] == '/' then "//" else [s[0]]) + Escape(s[1..])
  }

  function CacheKey(id: string, currency: string): string {
    Escape(id) + "/" + Escape(currency)
  }

  predicate Slashes(s: string) { forall i :: 0 <= i < |s| ==> s[i] == '/' }

  /** s without the slashes it ends in. */
  function Stem(s: string): string {
    if Slashes(s) then [] else [s[0]] + Stem(s[1..])
  }

  /** How many slashes s ends in. */
  function Trailing(s: string): nat {
    if Slashes(s) then |s| else Trailing(s[1..])
  }

  /** How many slashes s starts with. */
  function Leading(s: string): (n: nat)
    ensures n <= |s|
  {
    if s != [] && s[0] == '/' then 1 + Leading(s[1..]) else 0
  }

  /** s without the slashes it starts with. */
  function Rest(s: string): string { s[Leading(s)..] }

  /** The key cannot tell where the separator stands among the slashes around it. */
  predicate SameEntry(id: string, currency: string, id2: string, currency2: string) {
    && Stem(id) == Stem(id2) && Rest(currency) == Rest(currency2)
    && Trailing(id) + Leading(currency) == Trailing(id2) + Leading(currency2)
  }

  lemma {:induction false} EscapeInjective(s: string, t: string)
    ensures Escape(s) == Escape(t) <==> s == t
  {
    if s != [] && t != [] {
      EscapeInjective(s[1..], t[1..]);
      EscapeFront(s);
      EscapeFront(t);
      if Escape(s) == Escape(t) {
        assert s[0] == Escape(s)[0] == Escape(t)[0] == t[0];
        assert s == [s[0]] + s[1..] && t == [t[0]] + t[1..];
      }
    }
  }

  lemma EscapeFront(s: string)
    requires s != []
    ensures Escape(s) != [] && Escape(s)[0] == s[0]
    ensures s[0] == '/' ==> |Escape(s)| >= 2 && Escape(s)[1] == '/' && Escape(s)[2..] == Escape(s[1..])
    ensures s[0] != '/' ==> Escape(s)[1..] == Escape(s[1..])
  {
  }

  lemma KeyFront(id: string, currency: string)
    requires id != []
    ensures CacheKey(id, currency)
            == (if id[0] == '/' then "//" else [id[0]]) + CacheKey(id[1..], currency)
  {
  }

  /** The same first character can be dropped from both ids. */
  lemma DropFront(id: string, currency: string, id2: string, currency2: string)
    requires id != [] && id2 != [] && id[0] == id2[0]
    ensures CacheKey(id, currency) == CacheKey(id2, currency2)
            <==> CacheKey(id[1..], currency) == CacheKey(id2[1..], currency2)
    ensures SameEntry(id, currency, id2, currency2) <==> SameEntry(id[1..], currency, id2[1..], currency2)
  {
    KeyFront(id, currency);
    KeyFront(id2, currency2);
    var front := if id[0] == '/' then "//" else [id[0]];
    Prefixed(front, CacheKey(id[1..], currency), CacheKey(id2[1..], currency2));
    StemFront(id);
    StemFront(id2);
    StemEmpty(id[1..]);
    StemEmpty(id2[1..]);
    Prefixed([id[0]], Stem(id[1..]), Stem(id2[1..]));
  }

  lemma StemEmpty(s: string)
    ensures Slashes(s) <==> Stem(s) == []
  {
  }

  lemma Prefixed(front: string, s: string, t: string)
    ensures front + s == front + t <==> s == t
  {
    assert (front + s)[|front|..] == s && (front + t)[|front|..] == t;
  }

  lemma StemFront(s: string)
    requires s != []
    ensures Slashes(s) <==> s[0] == '/' && Slashes(s[1..])
    ensures Slashes(s) ==> Stem(s) == [] == Stem(s[1..]) && Trailing(s) == 1 + Trailing(s[1..])
    ensures !Slashes(s) ==> Stem(s) == [s[0]] + Stem(s[1..]) && Trailing(s) == Trailing(s[1..])
  {
    if s[0] == '/' && Slashes(s[1..]) {
      assert forall i :: 0 < i < |s| ==> s[i] == s[1..][i - 1];
    }
  }

  /** An empty id and a currency that starts with a slash, against an id that does: a slash can be dropped
      from both. */
  lemma DropSlash(currency: string, id2: string, currency2: string)
    requires id2 != [] && id2[0] == '/' && currency != [] && currency[0] == '/'
    ensures CacheKey([], currency) == CacheKey(id2, currency2)
            <==> CacheKey([], currency[1..]) == CacheKey(id2[1..], currency2)
    ensures SameEntry([], currency, id2, currency2) <==> SameEntry([], currency[1..], id2[1..], currency2)
  {
    hide CacheKey, Escape, Stem, Trailing, SameEntry;
    KeyFront(id2, currency2);
    SlashedKey(currency);
    Prefixed("//", CacheKey([], currency[1..]), CacheKey(id2[1..], currency2));
    DropSlashEntry(currency, id2, currency2);
  }

  /** The separator and an escaped slash, in either order. */
  lemma SlashedKey(currency: string)
    requires currency != [] && currency[0] == '/'
    ensures CacheKey([], currency) == "//" + CacheKey([], currency[1..])
  {
    hide Stem, Trailing;
    assert Escape(currency) == "//" + Escape(currency[1..]);
    assert "/" + ("//" + Escape(currency[1..])) == "//" + ("/" + Escape(currency[1..]));
  }

  lemma DropSlashEntry(currency: string, id2: string, currency2: string)
    requires id2 != [] && id2[0] == '/' && currency != [] && currency[0] == '/'
    ensures SameEntry([], currency, id2, currency2) <==> SameEntry([], currency[1..], id2[1..], currency2)
  {
    hide Escape, Stem, Trailing;
    EmptyStem();
    StemFront(id2);
    StemEmpty(id2[1..]);
    assert currency[1..][Leading(currency[1..])..] == currency[Leading(currency)..];
  }

  lemma EmptyStem()
    ensures Stem([]) == [] && Trailing([]) == 0
  {
  }

  /** Without that slash the keys differ in their second character. */
  lemma NoSlashToDrop(currency: string, id2: string, currency2: string)
    requires id2 != [] && id2[0] == '/' && (currency == [] || currency[0] != '/')
    ensures CacheKey([], currency) != CacheKey(id2, currency2)
    ensures !SameEntry([], currency, id2, currency2)
  {
    SecondCharacter(currency, id2, currency2);
    hide Escape, Stem, Trailing;
    EmptyStem();
    StemFront(id2);
    StemEmpty(id2[1..]);
  }

  lemma SecondCharacter(currency: string, id2: string, currency2: string)
    requires id2 != [] && id2[0] == '/' && (currency == [] || currency[0] != '/')
    ensures CacheKey([], currency) != CacheKey(id2, currency2)
  {
    hide Stem, Trailing;
    KeyFront(id2, currency2);
    assert CacheKey(id2, currency2)[1] == '/';
    var key := CacheKey([], currency);
    assert key == "/" + Escape(currency);
    if currency != [] {
      EscapeFront(currency);
      assert key[1] == currency[0];
    }
  }

  /** Two lookups share a cache entry exactly if their ids agree up to the slashes they end in, their
      currencies up to the slashes they start with, and they have equally many of those slashes in all. */
  lemma {:induction false} KeysCoincideExactly(id: string, currency: string, id2: string, currency2: string)
    ensures CacheKey(id, currency) == CacheKey(id2, currency2) <==> SameEntry(id, currency, id2, currency2)
    decreases |id| + |id2|
  {
    hide CacheKey, SameEntry;
    if id == [] && id2 == [] {
      BothEmpty(currency, currency2);
    } else if id == [] {
      EmptyAgainst(currency, id2, currency2);
      if id2[0] == '/' && currency != [] && currency[0] == '/' {
        KeysCoincideExactly([], currency[1..], id2[1..], currency2);
      }
    } else if id2 == [] {
      EmptyAgainst(currency2, id, currency);
      Symmetric(id, currency, id2, currency2);
      if id[0] == '/' && currency2 != [] && currency2[0] == '/' {
        KeysCoincideExactly([], currency2[1..], id[1..], currency);
      }
    } else if id[0] == id2[0] {
      DropFront(id, currency, id2, currency2);
      KeysCoincideExactly(id[1..], currency, id2[1..], currency2);
    } else {
      DifferentFronts(id, currency, id2, currency2);
    }
  }

  lemma Symmetric(id: string, currency: string, id2: string, currency2: string)
    ensures SameEntry(id, currency, id2, currency2) <==> SameEntry(id2, currency2, id, currency)
  {
  }

  lemma EmptyAgainst(currency: string, id2: string, currency2: string)
    requires id2 != []
    ensures id2[0] == '/' && currency != [] && currency[0] == '/' ==>
              && (CacheKey([], currency) == CacheKey(id2, currency2) <==>
                    CacheKey([], currency[1..]) == CacheKey(id2[1..], currency2))
              && (SameEntry([], currency, id2, currency2) <==> SameEntry([], currency[1..], id2[1..], currency2))
    ensures !(id2[0] == '/' && currency != [] && currency[0] == '/') ==>
              CacheKey([], currency) != CacheKey(id2, currency2) && !SameEntry([], currency, id2, currency2)
  {
    hide SameEntry, Escape, Stem, Trailing;
    if id2[0] == '/' && currency != [] && currency[0] == '/' {
      DropSlash(currency, id2, currency2);
    } else if id2[0] == '/' {
      NoSlashToDrop(currency, id2, currency2);
    } else {
      OtherFront(currency, id2, currency2);
    }
  }

  /** An id that starts with another character. */
  lemma OtherFront(currency: string, id2: string, currency2: string)
    requires id2 != [] && id2[0] != '/'
    ensures CacheKey([], currency) != CacheKey(id2, currency2) && !SameEntry([], currency, id2, currency2)
  {
    KeyFront(id2, currency2);
    StemFront(id2);
    assert CacheKey([], currency)[0] == '/';
  }

  lemma BothEmpty(currency: string, currency2: string)
    ensures CacheKey([], currency) == CacheKey([], currency2) <==> SameEntry([], currency, [], currency2)
  {
    EscapeInjective(currency, currency2);
    assert CacheKey([], currency) == "/" + Escape(currency) && CacheKey([], currency2) == "/" + Escape(currency2);
    Prefixed("/", Escape(currency), Escape(currency2));
    SlashesThenRest(currency, currency2);
  }

  /** The slashes a string starts with and the rest determine it. */
  lemma {:induction false} SlashesThenRest(s: string, t: string)
    ensures Leading(s) == Leading(t) && Rest(s) == Rest(t) <==> s == t
  {
    if Leading(s) == Leading(t) && Rest(s) == Rest(t) && Leading(s) > 0 {
      assert Rest(s) == Rest(s[1..]) && Rest(t) == Rest(t[1..]);
      SlashesThenRest(s[1..], t[1..]);
      assert s == [s[0]] + s[1..] && t == [t[0]] + t[1..];
    }
  }

  lemma DifferentFronts(id: string, currency: string, id2: string, currency2: string)
    requires id != [] && id2 != [] && id[0] != id2[0]
    ensures CacheKey(id, currency) != CacheKey(id2, currency2) && !SameEntry(id, currency, id2, currency2)
  {
    KeyFront(id, currency);
    KeyFront(id2, currency2);
    assert CacheKey(id, currency)[0] == id[0] && CacheKey(id2, currency2)[0] == id2[0];
    StemFront(id);
    StemFront(id2);
    assert !Slashes(id) ==> Stem(id)[0] == id[0];
    assert !Slashes(id2) ==> Stem(id2)[0] == id2[0];
  }

  /** The pairs among which the key is unambiguous. */
  predicate Plain(id: string, currency: string) {
    (id == [] || id[|id| - 1] != '/') && (currency == [] || currency[0] != '/')
  }

  lemma {:induction false} PlainStem(s: string)
    requires s == [] || s[|s| - 1] != '/'
    ensures Stem(s) == s && Trailing(s) == 0
  {
    if s != [] {
      assert !Slashes(s);
      PlainStem(s[1..]);
      assert s == [s[0]] + s[1..];
    }
  }

  lemma PlainKeysAreInjective(id: string, currency: string, id2: string, currency2: string)
    requires Plain(id, currency) && Plain(id2, currency2) && CacheKey(id, currency) == CacheKey(id2, currency2)
    ensures id == id2 && currency == currency2
  {
    KeysCoincideExactly(id, currency, id2, currency2);
    PlainStem(id);
    PlainStem(id2);
  }

  lemma KeysCollide()
    ensures CacheKey("a/", "b") == CacheKey("a", "/b")
  {
    var id, currency := "a/", "/b";
    assert id[1..] == "/" && currency[1..] == "b";
    KeysCoincideExactly(id, "b", "a", currency);
    assert Leading("b") == 0 && Leading(currency) == 1 + Leading(currency[1..]);
    assert Stem(id) == ['a'] + Stem(id[1..]) && Stem("a") == ['a'] + Stem("a"[1..]);
  }

  datatype PriceResponse = PriceResponse(price: real, lastUpdated: Time)

  /** The critical sections of lookups, in the order in which the lock is taken: a look into the cache under
      the read lock, and the storing of a price fetched for the pair under the write lock. */
  datatype Section =
    | Looked(id: string, currency: string, now: Time)
    | Stored(id: string, currency: string, price: real, at: Time)

  function Key(section: Section): string { CacheKey(section.id, section.currency) }

  /** The cache after the first n sections. */
  function CacheAfter(history: seq<Section>, n: nat): map<string, PriceResponse>
    requires n <= |history|
  {
    if n == 0 then map[]
    else
      var before := CacheAfter(history, n - 1);
      match history[n - 1]
      case Looked(_, _, _) => before
      case Stored(_, _, price, at) => before[Key(history[n - 1]) := PriceResponse(price, at)]
  }

  /** What the look at place i is served; nothing if there is no entry, or only an old one. */
  function ServedAt(interval: int, history: seq<Section>, i: nat): Option<real>
    requires i < |history| && history[i].Looked?
  {
    var cache, key := CacheAfter(history, i), Key(history[i]);
    if key !in cache || history[i].now - cache[key].lastUpdated > interval then None else Some(cache[key].price)
  }

  /** The section at place j is a look for the pair. */
  predicate LooksFor(history: seq<Section>, j: nat, id: string, currency: string)
    requires j < |history|
  {
    history[j].Looked? && history[j].id == id && history[j].currency == currency
  }

  /** A price is stored only by a call that looked before. */
  ghost predicate Orderly(history: seq<Section>) {
    forall i :: 0 <= i < |history| && history[i].Stored? ==>
      exists j :: 0 <= j < i && LooksFor(history, j, history[i].id, history[i].currency)
  }

  /** The last price stored under the key among the first n sections. */
  predicate LastUnder(history: seq<Section>, n: nat, key: string, j: nat)
    requires n <= |history|
  {
    && j < n && history[j].Stored? && Key(history[j]) == key
    && forall k :: j < k < n && history[k].Stored? ==> Key(history[k]) != key
  }

  /** An entry is the last price stored under its key. */
  lemma {:induction false} EntryIsLastStored(history: seq<Section>, n: nat, key: string) returns (j: nat)
    requires n <= |history| && key in CacheAfter(history, n)
    ensures LastUnder(history, n, key, j)
    ensures CacheAfter(history, n)[key] == PriceResponse(history[j].price, history[j].at)
  {
    hide Key;
    if history[n - 1].Stored? && Key(history[n - 1]) == key {
      j := n - 1;
    } else {
      j := EntryIsLastStored(history, n - 1, key);
    }
  }

  /** Whatever the interleaving of calls: a look that is served gets the last price stored under its key, which
      is no older than the interval. */
  lemma ServedUnderItsKey(interval: int, history: seq<Section>, i: nat) returns (j: nat)
    requires i < |history| && history[i].Looked? && ServedAt(interval, history, i).Some?
    ensures LastUnder(history, i, Key(history[i]), j)
    ensures history[j].price == ServedAt(interval, history, i).value && history[i].now - history[j].at <= interval
  {
    hide Key;
    j := EntryIsLastStored(history, i, Key(history[i]));
  }

  /** And the other way: the last price stored under the key is served, if it is no older than the interval. */
  lemma {:induction false} LastStoredIsEntry(history: seq<Section>, n: nat, key: string, j: nat)
    requires n <= |history| && LastUnder(history, n, key, j)
    ensures key in CacheAfter(history, n)
    ensures CacheAfter(history, n)[key] == PriceResponse(history[j].price, history[j].at)
  {
    hide Key;
    if j < n - 1 {
      LastStoredIsEntry(history, n - 1, key, j);
    }
  }

  lemma ServedWhileFresh(interval: int, history: seq<Section>, i: nat, j: nat)
    requires i < |history| && history[i].Looked? && LastUnder(history, i, Key(history[i]), j)
    ensures ServedAt(interval, history, i)
            == if history[i].now - history[j].at <= interval then Some(history[j].price) else None
  {
    hide Key;
    LastStoredIsEntry(history, i, Key(history[i]), j);
  }

  /** While every look is for a plain pair, that price was fetched for the pair itself, and is the last one
      fetched for it. */
  lemma ServedForItsPair(interval: int, history: seq<Section>, i: nat) returns (j: nat)
    requires Orderly(history) && i < |history| && history[i].Looked? && ServedAt(interval, history, i).Some?
    requires forall k :: 0 <= k < |history| && history[k].Looked? ==> Plain(history[k].id, history[k].currency)
    ensures j < i && history[j].Stored? && history[j].id == history[i].id && history[j].currency == history[i].currency
    ensures history[j].price == ServedAt(interval, history, i).value && history[i].now - history[j].at <= interval
    ensures forall k :: j < k < i && history[k].Stored? ==>
              history[k].id != history[i].id || history[k].currency != history[i].currency
  {
    j := ServedUnderItsKey(interval, history, i);
    var l :| 0 <= l < j && LooksFor(history, l, history[j].id, history[j].currency);
    assert Plain(history[l].id, history[l].currency);
    PlainKeysAreInjective(history[j].id, history[j].currency, history[i].id, history[i].currency);
  }

  class CachedPriceClient {
    const cacheRefreshInterval: int
    var cache: map<string, PriceResponse>
    ghost var history: seq<Section>

    ghost predicate Valid()
      reads this
    {
      cache == CacheAfter(history, |history|) && Orderly(history)
    }

    constructor (interval: int)
      ensures Valid() && cacheRefreshInterval == interval && history == []
    {
      cacheRefreshInterval := interval;
      cache := map[];
      history := [];
    }

    /** The section under the read lock. */
    method Lookup(id: string, currency: string, now: Time) returns (price: Option<real>)
      requires Valid()
      modifies `history
      ensures Valid() && history == old(history) + [Looked(id, currency, now)]
      ensures price == ServedAt(cacheRefreshInterval, history, |old(history)|)
    {
      hide CacheKey;
      Append(history, Looked(id, currency, now));
      history := history + [Looked(id, currency, now)];
      var key := CacheKey(id, currency);
      if key !in cache || now - cache[key].lastUpdated > cacheRefreshInterval {
        return None;
      }
      return Some(cache[key].price);
    }

    /** The section under the write lock. */
    method Store(id: string, currency: string, price: real, at: Time)
      requires Valid() && exists j :: 0 <= j < |history| && LooksFor(history, j, id, currency)
      modifies this
      ensures Valid() && history == old(history) + [Stored(id, currency, price, at)]
    {
      hide CacheKey;
      Append(history, Stored(id, currency, price, at));
      history := history + [Stored(id, currency, price, at)];
      cache := cache[CacheKey(id, currency) := PriceResponse(price, at)];
    }

    /** A call that no other call interrupts: it looks; if it is served it returns that price; else it asks the
        internal client, and stores and returns the price it gets, or fails and leaves the cache alone. */
    method GetSimplePrice(id: string, currency: string, now: Time, reply: Option<real>, at: Time)
      returns (price: Option<real>)
      requires Valid()
      modifies this
      ensures Valid()
      ensures var looked := old(history) + [Looked(id, currency, now)];
              var served := ServedAt(cacheRefreshInterval, looked, |old(history)|);
              && price == (if served.Some? then served else reply)
              && history == looked + if served.None? && reply.Some? then [Stored(id, currency, reply.value, at)]
                                     else []
    {
      hide CacheAfter, Orderly, ServedAt;
      price := Lookup(id, currency, now);
      assert LooksFor(history, |history| - 1, id, currency);
      if price.None? && reply.Some? {
        Store(id, currency, reply.value, at);
        price := reply;
      }
    }
  }

  /** One more section leaves what was before it. */
  lemma Append(history: seq<Section>, section: Section)
    requires Orderly(history)
    requires section.Stored? ==>
               exists j :: 0 <= j < |history| && LooksFor(history, j, section.id, section.currency)
    ensures CacheAfter(history + [section], |history|) == CacheAfter(history, |history|)
    ensures Orderly(history + [section])
  {
    SamePrefix(history, section, |history|);
    var longer := history + [section];
    forall i | 0 <= i < |longer| && longer[i].Stored?
      ensures exists j :: 0 <= j < i && LooksFor(longer, j, longer[i].id, longer[i].currency)
    {
      var j :| 0 <= j < i && LooksFor(history, j, longer[i].id, longer[i].currency);
      assert LooksFor(longer, j, longer[i].id, longer[i].currency);
    }
  }

  lemma {:induction false} SamePrefix(history: seq<Section>, section: Section, n: nat)
    requires n <= |history|
    ensures CacheAfter(history + [section], n) == CacheAfter(history, n)
  {
    hide Key;
    if n != 0 {
      SamePrefix(history, section, n - 1);
    }
  }
}
