# CryptoContext: the live price aggregator of CCtracker

This project models the live price aggregator inside `CryptoProvider` in
`src/contexts/CryptoContext.tsx`. The provider subscribes to a feed of
`CryptoData` records and keeps a snapshot `cryptoData` of the latest record
per symbol, plus a `loading` flag.

- A data event merges one record into the snapshot by symbol. The first entry
  with the same symbol is replaced in place. A record with a new symbol is
  appended. Then `loading` becomes false.
- A reset event sets `loading` back to true and keeps the stale snapshot.
- Initially the snapshot is empty and `loading` is true.

Everything is in one module, `CryptoContext`, in `crypto_context.dfy`:

- `CryptoData` is a datatype with a `symbol` string and an opaque `Payload`.
  The record's real type lives in `src/Api/cryptoApi`, which is not part of
  this model. The aggregator reads only `symbol`.
- `FindIndex` models `Array.prototype.findIndex` with the test
  `item.symbol === newData.symbol`. It returns -1 or the first matching index.
- `Upsert` is the pure updater passed to `setCryptoData`.
- `Replay` folds `Upsert` over a whole feed, starting from the empty snapshot.
  `FirstAppearances` and `Latest` are reference definitions. They give the
  order of first appearance and the last record per symbol. `ReplayFirstArrival`
  states the order a second way, through the index in the feed where each
  symbol first arrives.
- `Lookup` reads a snapshot as a map from symbol to record. `LookupUpsert`
  shows that an upsert acts like a map update.
- The class `CryptoProvider` holds the two React state cells as fields. Its
  ghost field `received` logs every record delivered. `Valid()` states that
  the snapshot is `Replay(received)`, so by `Replay`'s postcondition it holds
  one entry per symbol. It also states that the provider is only ready after some record has arrived.
  `OnUpdate` and `OnReset` are the two callbacks given to the feed.
- `FeedScenario` drives the provider with a record, a record of another
  symbol and a newer record of the first symbol (BTC, ETH, then a newer BTC),
  then a reset. It asserts the snapshot and the flag after each step.

React applies state updaters one at a time, so the model treats the feed as a
plain sequence of method calls.

## Model

| member | source | states |
|---|---|---|
| `CryptoContext.FindIndex` | src/contexts/CryptoContext.tsx:24 | the result is -1 exactly when no entry has the symbol; otherwise it is an index holding the symbol, and no earlier index holds it |
| `CryptoContext.Upsert` | src/contexts/CryptoContext.tsx:23-31 | the symbols of the result, in order, are the old symbols, with the new symbol appended only when it was absent, so existing entries never move |
| `CryptoContext.Lookup` | src/contexts/CryptoContext.tsx:24 | a snapshot searched from the front yields a record exactly for the symbols it holds, and that record is an entry of the snapshot with that symbol |
| `CryptoContext.UpsertReplacesFirst` | src/contexts/CryptoContext.tsx:24-28 | when index i is the first entry with the record's symbol, the length is unchanged, entry i becomes the record, and every other entry is unchanged |
| `CryptoContext.UpsertAppends` | src/contexts/CryptoContext.tsx:29-30 | when no entry has the record's symbol, the result is the old snapshot followed by the record |
| `CryptoContext.UpsertKeepsOthers` | src/contexts/CryptoContext.tsx:24-30 | the length grows by at most one, every old position keeps its symbol, and entries of other symbols are unchanged |
| `CryptoContext.UpsertPreservesUnique` | src/contexts/CryptoContext.tsx:24-30 | if the snapshot has pairwise distinct symbols, so does the result, and the only entry with the record's symbol is the record itself |
| `CryptoContext.UpsertIdempotent` | src/contexts/CryptoContext.tsx:24-30 | upserting the same record twice gives the same snapshot as upserting it once |
| `CryptoContext.UpsertSymbols` | src/contexts/CryptoContext.tsx:24-30 | the set of symbols after an upsert is the old set plus the record's symbol, so no symbol is dropped |
| `CryptoContext.LookupUpsert` | src/contexts/CryptoContext.tsx:23-31 | after an upsert, the lookup of the record's symbol gives the record, and the lookup of any other symbol is unchanged |
| `CryptoContext.Replay` | src/contexts/CryptoContext.tsx:16-32 | the snapshot after any feed of records, starting from the initial empty array, holds at most one entry per symbol |
| `CryptoContext.ReplayOrder` | src/contexts/CryptoContext.tsx:23-31 | the symbols of the snapshot are the feed's distinct symbols in order of first appearance |
| `CryptoContext.ReplayLatest` | src/contexts/CryptoContext.tsx:22-32 | for every symbol, the snapshot holds the last record the feed delivered for it, and nothing for a symbol never delivered |
| `CryptoContext.ReplaySymbols` | src/contexts/CryptoContext.tsx:22-32 | a symbol is in the snapshot exactly when the feed has delivered a record with it |
| `CryptoContext.ReplayFirstArrival` | src/contexts/CryptoContext.tsx:23-31 | of any two snapshot entries, the earlier one's symbol first arrived in the feed strictly before the later one's |
| `CryptoContext.ReplayStable` | src/contexts/CryptoContext.tsx:23-31 | records delivered later, of any symbols, never shorten the snapshot or change the symbol at any existing position |
| `CryptoContext.ReplayRepeat` | src/contexts/CryptoContext.tsx:23-31 | a record delivered twice in a row leaves the same snapshot as once |
| `CryptoContext.ReplayOneRecord` | src/contexts/CryptoContext.tsx:16-30 | one record delivered to the initial empty snapshot gives the one-entry snapshot holding it |
| `CryptoContext.ReplayNewSymbol` | src/contexts/CryptoContext.tsx:29-30 | a record, then one of another symbol, gives both records in arrival order |
| `CryptoContext.ReplayNewerFirst` | src/contexts/CryptoContext.tsx:24-28 | a record, then one of another symbol, then a newer record of the first symbol gives `[newer, other]`: the first symbol is updated in front |
| `CryptoContext.CryptoProvider.constructor` | src/contexts/CryptoContext.tsx:16-18 | the snapshot starts empty, `loading` starts true, and the invariant holds |
| `CryptoContext.CryptoProvider.OnUpdate` | src/contexts/CryptoContext.tsx:22-33 | the snapshot becomes the upsert of the old one with the record, `loading` becomes false, and the invariant is kept |
| `CryptoContext.CryptoProvider.OnReset` | src/contexts/CryptoContext.tsx:35 | `loading` becomes true, the snapshot is not modified, and the invariant is kept |

## Left out

- `subscribeToCryptoData`, the `useEffect` registration and the unsubscribe on teardown (src/contexts/CryptoContext.tsx:20-21, 38) are external I/O and React lifecycle. The feed appears only as a caller of `OnUpdate` and `OnReset`.
- `getCoinData` and `getCoinHistory` (src/contexts/CryptoContext.tsx:41-57) are not modelled. As written, line 43 awaits the state setter `setCoinData(coinId)` instead of a fetch, and line 52 calls `getCoinHistory` itself. They depend on asynchronous behaviour and on a fetch API that is not part of this model, so they have no sound meaning to give.
- `coinData` (src/contexts/CryptoContext.tsx:17) is left out. It is typed `unknown`, and only the two lookups above write it.
- The provider's JSX rendering, the `console.log` at line 73 and the `useCrypto` hook with its throw at line 77 (src/contexts/CryptoContext.tsx:61-80) are React framework glue.
- Concurrency is left out. React applies state updaters one at a time, so updates are a sequence of calls.
- `CryptoData`'s fields other than `symbol` are an opaque `Payload`, because the record type in `src/Api/cryptoApi` is not part of this model. Record equality is structural equality of symbol and payload.
