/**
  The live price aggregator of the crypto tracker's `CryptoProvider`.

  A feed pushes one `CryptoData` record at a time. The provider merges each
  record into its snapshot by symbol: the first entry with the same symbol is
  replaced in place, and a record with a new symbol is appended. A second
  callback of the feed signals a reset, which only raises the loading flag.

  The merge itself is pure and is modelled by the functions `FindIndex` and
  `Upsert`; `Replay` folds it over a whole feed. The provider's two state cells
  are the fields of the class `CryptoProvider`.
 */
module CryptoContext {

  /** The fields of a record other than its symbol (price, name, ...).
      The aggregator never reads them, so they stay opaque. */
  type Payload(==)

  datatype CryptoData = CryptoData(symbol: string, payload: Payload)

  datatype Option<T> = None | Some(value: T)

  /** The symbols of a snapshot, in snapshot order. */
  function Keys(s: seq<CryptoData>): seq<string>
  {
    seq(|s|, i requires 0 <= i < |s| => s[i].symbol)
  }

  /** The symbols of a snapshot, as a set. */
  function Symbols(s: seq<CryptoData>): set<string>
  {
    set k | k in Keys(s)
  }

  /** At most one entry per symbol. */
  predicate Unique(s: seq<CryptoData>)
  {
    forall i, j :: 0 <= i < j < |s| ==> s[i].symbol != s[j].symbol
  }

  /** `Array.prototype.findIndex` with the test `item.symbol === sym`:
      the first index holding `sym`, or -1 when there is none. */
  function FindIndex(s: seq<CryptoData>, sym: string): (r: int)
    ensures -1 <= r < |s|
    ensures r == -1 <==> sym !in Keys(s)
    ensures r >= 0 ==> s[r].symbol == sym && forall j :: 0 <= j < r ==> s[j].symbol != sym
  {
    if |s| == 0 then -1
    else
      assert Keys(s) == [s[0].symbol] + Keys(s[1..]);
      if s[0].symbol == sym then 0
      else
        var k := FindIndex(s[1..], sym);
        if k == -1 then -1 else k + 1
  }

  /** `FindIndex` finds exactly the first index holding the symbol. */
  lemma FindIndexFirst(s: seq<CryptoData>, sym: string, i: nat)
    requires i < |s| && s[i].symbol == sym
    requires forall j :: 0 <= j < i ==> s[j].symbol != sym
    ensures FindIndex(s, sym) == i
  {
    assert Keys(s)[i] == sym;
  }

  /** A symbol absent from `s` is found right after it once `d` is appended. */
  lemma FindIndexAppended(s: seq<CryptoData>, d: CryptoData)
    requires d.symbol !in Keys(s)
    ensures FindIndex(s + [d], d.symbol) == |s|
  {
    forall j | 0 <= j < |s|
      ensures (s + [d])[j].symbol != d.symbol
    {
      assert Keys(s)[j] == s[j].symbol;
    }
    FindIndexFirst(s + [d], d.symbol, |s|);
  }

  /** The updater given to `setCryptoData`: replace the first entry with the
      record's symbol, or append the record when its symbol is new. Either way
      the symbols already present keep their positions. */
  function Upsert(s: seq<CryptoData>, d: CryptoData): (r: seq<CryptoData>)
    ensures Keys(r) == if d.symbol in Keys(s) then Keys(s) else Keys(s) + [d.symbol]
  {
    var index := FindIndex(s, d.symbol);
    if index > -1 then s[index := d] else s + [d]
  }

  /** The entry a consumer finds for `sym` when searching the snapshot from the front. */
  function Lookup(s: seq<CryptoData>, sym: string): (r: Option<CryptoData>)
    ensures r.Some? <==> sym in Keys(s)
    ensures r.Some? ==> r.value in s && r.value.symbol == sym
  {
    var index := FindIndex(s, sym);
    if index == -1 then None else Some(s[index])
  }

  /** An existing symbol: the first entry holding it becomes `d`, and nothing else changes. */
  lemma UpsertReplacesFirst(s: seq<CryptoData>, d: CryptoData, i: nat)
    requires i < |s| && s[i].symbol == d.symbol
    requires forall j :: 0 <= j < i ==> s[j].symbol != d.symbol
    ensures |Upsert(s, d)| == |s|
    ensures Upsert(s, d)[i] == d
    ensures forall j :: 0 <= j < |s| && j != i ==> Upsert(s, d)[j] == s[j]
  {
    FindIndexFirst(s, d.symbol, i);
  }

  /** A new symbol: the record is appended and the old entries stay as they were. */
  lemma UpsertAppends(s: seq<CryptoData>, d: CryptoData)
    requires d.symbol !in Keys(s)
    ensures Upsert(s, d) == s + [d]
  {
  }

  /** An upsert never moves or drops an entry, and only entries of `d.symbol` can change. */
  lemma UpsertKeepsOthers(s: seq<CryptoData>, d: CryptoData)
    ensures |s| <= |Upsert(s, d)| <= |s| + 1
    ensures forall j :: 0 <= j < |s| ==> Upsert(s, d)[j].symbol == s[j].symbol
    ensures forall j :: 0 <= j < |s| && s[j].symbol != d.symbol ==> Upsert(s, d)[j] == s[j]
  {
  }

  /** The snapshot keeps one entry per symbol, and the entry for `d.symbol` is `d`. */
  lemma UpsertPreservesUnique(s: seq<CryptoData>, d: CryptoData)
    requires Unique(s)
    ensures Unique(Upsert(s, d))
    ensures d in Upsert(s, d)
    ensures forall j :: 0 <= j < |Upsert(s, d)| && Upsert(s, d)[j].symbol == d.symbol ==> Upsert(s, d)[j] == d
  {
    var r := Upsert(s, d);
    var index := FindIndex(s, d.symbol);
    forall i, j | 0 <= i < j < |r|
      ensures r[i].symbol != r[j].symbol
    {
      assert Keys(r)[i] == r[i].symbol && Keys(r)[j] == r[j].symbol;
      if j < |s| {
        assert Keys(s)[i] == s[i].symbol && Keys(s)[j] == s[j].symbol;
      } else {
        assert Keys(s)[i] == s[i].symbol;
      }
    }
    if index > -1 {
      assert r[index] == d;
    } else {
      assert r[|s|] == d;
    }
  }

  /** Delivering the same record twice in a row is the same as delivering it once. */
  lemma UpsertIdempotent(s: seq<CryptoData>, d: CryptoData)
    ensures Upsert(Upsert(s, d), d) == Upsert(s, d)
  {
    var r := Upsert(s, d);
    var index := FindIndex(s, d.symbol);
    if index > -1 {
      UpsertReplacesFirst(r, d, index);
    } else {
      FindIndexAppended(s, d);
    }
  }

  /** The symbols after an upsert are the old ones plus `d.symbol`: no symbol is ever dropped. */
  lemma UpsertSymbols(s: seq<CryptoData>, d: CryptoData)
    ensures Symbols(Upsert(s, d)) == Symbols(s) + {d.symbol}
  {
  }

  /** Read as a map from symbol to record, the upsert is a map update. */
  lemma LookupUpsert(s: seq<CryptoData>, d: CryptoData, sym: string)
    ensures Lookup(Upsert(s, d), sym) == if sym == d.symbol then Some(d) else Lookup(s, sym)
  {
    var r := Upsert(s, d);
    UpsertKeepsOthers(s, d);
    if sym == d.symbol {
      var index := FindIndex(s, d.symbol);
      if index > -1 {
        UpsertReplacesFirst(s, d, index);
        assert FindIndex(r, sym) == index;
      } else {
        FindIndexAppended(s, d);
      }
    } else {
      var k := FindIndex(s, sym);
      if k == -1 {
        assert sym !in Keys(r);
      } else {
        FindIndexFirst(r, sym, k);
      }
    }
  }

  /** The snapshot after the feed `feed` has been delivered, one record at a time,
      starting from the provider's initial empty snapshot. */
  function Replay(feed: seq<CryptoData>): (r: seq<CryptoData>)
    ensures Unique(r)
  {
    if feed == [] then []
    else
      var prior := Replay(feed[..|feed| - 1]);
      UpsertPreservesUnique(prior, feed[|feed| - 1]);
      Upsert(prior, feed[|feed| - 1])
  }

  /** The distinct symbols of a feed, in the order of their first appearance. */
  function FirstAppearances(feed: seq<CryptoData>): seq<string>
  {
    if feed == [] then []
    else
      var prior := FirstAppearances(feed[..|feed| - 1]);
      var sym := feed[|feed| - 1].symbol;
      if sym in prior then prior else prior + [sym]
  }

  /** The last record of a feed with symbol `sym`, if any. */
  function Latest(feed: seq<CryptoData>, sym: string): Option<CryptoData>
  {
    if feed == [] then None
    else if feed[|feed| - 1].symbol == sym then Some(feed[|feed| - 1])
    else Latest(feed[..|feed| - 1], sym)
  }

  /** Each symbol sits at the position of its first appearance in the feed. */
  lemma {:induction false} ReplayOrder(feed: seq<CryptoData>)
    ensures Keys(Replay(feed)) == FirstAppearances(feed)
  {
    if feed != [] {
      ReplayOrder(feed[..|feed| - 1]);
    }
  }

  /** The snapshot holds, for every symbol seen, the last record received for it,
      and nothing for a symbol never seen. */
  lemma {:induction false} ReplayLatest(feed: seq<CryptoData>, sym: string)
    ensures Lookup(Replay(feed), sym) == Latest(feed, sym)
  {
    if feed != [] {
      ReplayLatest(feed[..|feed| - 1], sym);
      LookupUpsert(Replay(feed[..|feed| - 1]), feed[|feed| - 1], sym);
    }
  }

  /** Appending a record does not change where a symbol already in `s` is first found. */
  lemma FindIndexExtend(s: seq<CryptoData>, d: CryptoData, sym: string)
    requires sym in Keys(s)
    ensures FindIndex(s + [d], sym) == FindIndex(s, sym)
  {
    FindIndexFirst(s + [d], sym, FindIndex(s, sym));
  }

  /** A non-empty sequence is its front followed by its last element. */
  lemma SplitLast(s: seq<CryptoData>)
    requires s != []
    ensures s == s[..|s| - 1] + [s[|s| - 1]]
  {
  }

  /** Delivering one more record upserts it into the snapshot so far. */
  lemma ReplaySnoc(front: seq<CryptoData>, d: CryptoData)
    ensures Replay(front + [d]) == Upsert(Replay(front), d)
  {
    assert (front + [d])[..|front|] == front;
  }

  /** `ReplaySnoc` for a feed given in two parts. */
  lemma ReplayExtend(feed: seq<CryptoData>, front: seq<CryptoData>, d: CryptoData)
    ensures Replay(feed + (front + [d])) == Upsert(Replay(feed + front), d)
  {
    assert feed + (front + [d]) == (feed + front) + [d];
    ReplaySnoc(feed + front, d);
  }

  /** The snapshot holds exactly the symbols the feed has delivered. */
  lemma {:induction false} ReplaySymbols(feed: seq<CryptoData>)
    ensures forall sym :: sym in Keys(Replay(feed)) <==> sym in Keys(feed)
  {
    if feed != [] {
      var front, d := feed[..|feed| - 1], feed[|feed| - 1];
      SplitLast(feed);
      ReplaySymbols(front);
      ReplaySnoc(front, d);
      assert Keys(feed) == Keys(front) + [d.symbol];
    }
  }

  /** Entries are ordered by the first delivery of their symbols: an earlier
      entry's symbol first arrived strictly before a later entry's symbol. */
  lemma {:induction false} ReplayFirstArrival(feed: seq<CryptoData>)
    ensures forall i, j :: 0 <= i < j < |Replay(feed)| ==>
      0 <= FindIndex(feed, Replay(feed)[i].symbol) < FindIndex(feed, Replay(feed)[j].symbol)
  {
    if feed != [] {
      var front, d := feed[..|feed| - 1], feed[|feed| - 1];
      SplitLast(feed);
      ReplayFirstArrival(front);
      ReplaySymbols(front);
      ReplaySnoc(front, d);
      var p, r := Replay(front), Replay(feed);
      UpsertKeepsOthers(p, d);
      forall k | 0 <= k < |p|
        ensures 0 <= FindIndex(feed, r[k].symbol) == FindIndex(front, p[k].symbol)
      {
        assert Keys(p)[k] == p[k].symbol;
        assert p[k].symbol in Keys(front);
        FindIndexExtend(front, d, p[k].symbol);
      }
      if |r| > |p| {
        assert Keys(r)[|p|] == d.symbol;
        assert d.symbol !in Keys(front);
        FindIndexAppended(front, d);
      }
      forall i, j | 0 <= i < j < |r|
        ensures 0 <= FindIndex(feed, r[i].symbol) < FindIndex(feed, r[j].symbol)
      {
        if j == |p| {
          assert FindIndex(feed, r[j].symbol) == |front|;
        }
      }
    } else {
      assert |Replay(feed)| == 0;
    }
  }

  /** Later records, of any symbols, never move the entries already in the snapshot. */
  lemma {:induction false} ReplayStable(feed: seq<CryptoData>, more: seq<CryptoData>)
    ensures |Replay(feed)| <= |Replay(feed + more)|
    ensures forall j :: 0 <= j < |Replay(feed)| ==> Replay(feed + more)[j].symbol == Replay(feed)[j].symbol
  {
    if more == [] {
      assert feed + more == feed;
    } else {
      var front, d := more[..|more| - 1], more[|more| - 1];
      ReplayStable(feed, front);
      SplitLast(more);
      ReplayExtend(feed, front, d);
      UpsertKeepsOthers(Replay(feed + front), d);
    }
  }

  /** A record delivered twice in a row leaves the same snapshot as once. */
  lemma ReplayRepeat(feed: seq<CryptoData>, d: CryptoData)
    ensures Replay(feed + [d, d]) == Replay(feed + [d])
  {
    assert feed + [d, d] == (feed + [d]) + [d];
    ReplaySnoc(feed + [d], d);
    ReplaySnoc(feed, d);
    UpsertIdempotent(Replay(feed), d);
  }

  /** A single record makes a one-entry snapshot (BTC alone). */
  lemma ReplayOneRecord(a: CryptoData)
    ensures Replay([a]) == [a]
  {
    assert [] + [a] == [a];
    ReplaySnoc([], a);
    UpsertAppends([], a);
  }

  /** A record of another symbol is appended after it (BTC, then ETH). */
  lemma ReplayNewSymbol(a: CryptoData, b: CryptoData)
    requires a.symbol != b.symbol
    ensures Replay([a, b]) == [a, b]
  {
    ReplayOneRecord(a);
    assert [a] + [b] == [a, b];
    ReplaySnoc([a], b);
    assert Keys([a]) == [a.symbol];
    UpsertAppends([a], b);
  }

  /** A newer record of the first symbol replaces it in front
      (BTC, ETH, then a newer BTC gives the newer BTC followed by ETH). */
  lemma ReplayNewerFirst(a: CryptoData, b: CryptoData, c: CryptoData)
    requires a.symbol != b.symbol && c.symbol == a.symbol
    ensures Replay([a, b, c]) == [c, b]
  {
    ReplayNewSymbol(a, b);
    assert [a, b] + [c] == [a, b, c];
    ReplaySnoc([a, b], c);
    UpsertReplacesFirst([a, b], c, 0);
    var r := Upsert([a, b], c);
    assert |r| == 2 && r[0] == c && r[1] == b;
    assert r == [c, b];
  }

  /** The provider's state: the snapshot `cryptoData` and the flag `loading`.
      `received` is the ghost log of every record the feed has delivered. */
  class CryptoProvider {
    var cryptoData: seq<CryptoData>
    var loading: bool
    ghost var received: seq<CryptoData>

    /** The snapshot is the merge of everything received (so, by `Replay`'s
        postcondition, one entry per symbol), and the provider is only ready
        after some record has arrived. */
    ghost predicate Valid()
      reads this
    {
      cryptoData == Replay(received) && (!loading ==> received != [])
    }

    /** Initially the snapshot is empty and the provider is loading. */
    constructor ()
      ensures Valid()
      ensures cryptoData == [] && loading && received == []
    {
      cryptoData := [];
      loading := true;
      received := [];
    }

    /** The data callback: merge the record, then clear the loading flag. */
    method OnUpdate(newData: CryptoData)
      requires Valid()
      modifies this
      ensures Valid()
      ensures received == old(received) + [newData]
      ensures cryptoData == Upsert(old(cryptoData), newData)
      ensures !loading
    {
      received := received + [newData];
      assert received[..|received| - 1] == old(received);
      cryptoData := Upsert(cryptoData, newData);
      loading := false;
    }

    /** The reset callback: raise the loading flag and keep the stale snapshot. */
    method OnReset()
      requires Valid()
      modifies this`loading
      ensures Valid()
      ensures loading
      ensures cryptoData == old(cryptoData) && received == old(received)
    {
      loading := true;
    }
  }

  /** The provider fed a record, a record of another symbol and a newer record
      of the first symbol (BTC, ETH, then a newer BTC), then reset. */
  method FeedScenario(a: CryptoData, b: CryptoData, c: CryptoData)
    requires a.symbol != b.symbol && c.symbol == a.symbol
  {
    var p := new CryptoProvider();
    assert p.loading && p.cryptoData == [];
    p.OnUpdate(a);
    assert p.received == [a];
    ReplayOneRecord(a);
    assert !p.loading && p.cryptoData == [a];
    p.OnUpdate(b);
    assert p.received == [a, b];
    ReplayNewSymbol(a, b);
    assert p.cryptoData == [a, b];
    p.OnUpdate(c);
    assert p.received == [a, b, c];
    ReplayNewerFirst(a, b, c);
    assert p.cryptoData == [c, b];
    p.OnReset();
    assert p.loading && p.cryptoData == [c, b];
  }
}
