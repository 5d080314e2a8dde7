# eth_getlogs resolution cache, modelled in Dafny

The program reads recent Uniswap-V2 `Sync` events from an Ethereum node and
prints a price per event. To print a price it needs, for each pair contract,
its two token addresses, and for each token its `decimals` and `symbol`. It
gets these with read-only contract calls and remembers them in two tables
that every lookup shares: `erc20s` (token address to `Erc20`) and `pairs`
(pair address to `Pair`). This project models those two memoizing lookups,
`get_erc20` and `get_pair`, and the call primitive they use, `do_call`.

- `onchain.dfy` (module `Onchain`): addresses, `Erc20`, `Pair`, the `Result`
  type that `?` propagates, and the chain as a `Provider` value. A
  `Provider` gives, for each of the four accessors (`decimals`, `symbol`,
  `token0`, `token1`) and each address, one of three replies: the node call
  failed, the answer did not decode, or it decoded to a value. `DoCall` maps
  these to `Ok(None)`, `Err(e)` and `Ok(Some(v))`, as `do_call` does.
- `memo.dfy` (module `Memo`): each lookup as a function from the tables it
  finds to its answer, the tables it leaves and the calls it makes, in
  order. The table invariant `Coherent` is defined here: only resolved
  lookups are stored, and a stored pair's metadata agrees with the token table.
  `get_pair`'s miss is written in two halves, `ReadTokens` (read `token0`,
  then `token1`) and `StorePair` (look up both tokens and store the pair),
  and `ResolvePair` is built from them.
- `properties.dfy` (module `Properties`): lemmas. They cover invariant
  preservation, memoization, the uncached failures, partial pairs and shared
  tokens. They also cover any sequence of lookups (`Run`): over it the
  tables are write-once, and a cached address is never asked about again.
- `resolver.dfy` (module `Resolver`): the class `ResolutionCache`. It holds
  the two tables as fields and keeps a ghost log of the calls made.
  `GetErc20` and `GetPair` update the tables in place and return early, as
  the source does. They propagate decode errors with `:-`, as the source
  does with `?`. `GetPair` runs its miss through two methods, `ReadTokens`
  and `StorePair`, one per half. Each method is proved equal to its function
  in `Memo`, and each method that changes a table keeps `Coherent`.

A lookup that fails is **not** remembered: every early return in `get_erc20`
(src/main.rs:176, 179) and `get_pair` (src/main.rs:200, 203) comes before
the `insert` (src/main.rs:187, 215). So a failing address is queried again on
every later lookup, and both tables only ever hold `Some` values. The model
states this (`Erc20FailureNotCached`, `PairFailureNotCached`, `Coherent`).
A pair whose token-metadata call fails at the node **is** remembered, with
`None` for that token (`PairStoredWithoutMetadata`). A metadata reply that
does not decode is different: `get_erc20` returns `Err`, `get_pair`
propagates it (src/main.rs:206-207) before its `insert`, and nothing is
stored for the pair. Any token already stored by then stays stored.

## Model

| member | source | states |
|---|---|---|
| `Onchain.DoCall` | src/main.rs:156-164 | a failed node call gives `Ok(None)`; a reply that does not decode gives `Err` with that error; a decoded reply gives `Ok(Some(v))`, each in both directions |
| `Memo.ResolveErc20` | src/main.rs:170-190 | a hit returns the stored value, calls nothing and keeps the table; calls go only to this token and only on a miss; `decimals` is called first, and `symbol` only once `decimals` decoded; a miss resolves iff both replies decode, to `Erc20(decimals, symbol)`, and then only that key is added; it is `Err` iff a reached reply does not decode; any unresolved outcome (`Ok(None)` or `Err`) leaves the table unchanged |
| `Memo.ResolvePair` | src/main.rs:194-217 | a hit returns the stored value, calls nothing and keeps both tables; pair accessors are called only on this pair and only on a miss, `token0` first and `token1` only once `token0` decoded; token metadata is asked only for this pair's two tokens, and never for a token already in the table; if `token0` or `token1` cannot be read, neither table changes, no metadata is asked for, and the result is `Err` iff a reached reply does not decode; once both token addresses are read, an `Ok` result is always a resolved pair, and the result is `Err` iff the metadata of a token not already in the table fails to decode; the token table only gains keys, only at this pair's tokens, each holding `Erc20(decimals, symbol)` exactly as decoded from the chain; a resolved miss is always stored at this address, and anything else leaves the pair table unchanged; a decode error on `token0`'s metadata stops before `token1` is asked about and leaves the token table unchanged; a readable `token0` not yet cached is stored even when `token1` then fails, and a readable `token1` whenever the lookup does not fail; a resolved pair names the tokens read and carries exactly the metadata the token table then holds for them |
| `Memo.ReadTokens` | src/main.rs:200-204 | `token0` is called first, and `token1` only once `token0` decoded; both addresses are read iff both replies decode, and then they are returned as decoded; the result is `Err` iff a reached reply does not decode |
| `Memo.StorePair` | src/main.rs:206-216 | once both token addresses are read: only metadata calls, only for these two tokens, only for uncached tokens; a decode error on `token0`'s metadata stops before any call about `token1` and stores nothing; a readable uncached `token0` is always stored, and a readable uncached `token1` whenever the lookup does not fail; `Err` iff an uncached token's metadata fails to decode, and then the pair table is unchanged; otherwise the pair of exactly these two tokens is returned and stored, carrying what the token table then holds; new token-table entries are these tokens with the decoded `decimals` and `symbol` |
| `Properties.Step` | src/main.rs:170-216 | one lookup of either kind on shared tables: both tables are extended without changing an entry; the call log only grows; each new metadata call is to a token not yet cached, and each new pair call is to a pair not yet cached |
| `Properties.ResolveErc20KeepsCoherent` | src/main.rs:182-187 | a token lookup preserves the invariant: only `Some` values are stored, and stored pairs agree with the token table; on a coherent table a hit is always resolved |
| `Properties.ResolvePairKeepsCoherent` | src/main.rs:206-215 | a pair lookup preserves the same invariant across both tables |
| `Properties.Erc20CallsNoRepeats` | src/main.rs:176-179 | a token lookup never makes the same call twice: `decimals` and `symbol` are each asked at most once |
| `Properties.StorePairKeepsCoherent` | src/main.rs:206-215 | the second half of a pair lookup, on a pair not yet stored, preserves the same invariant across both tables |
| `Properties.StorePairCallsInOrder` | src/main.rs:206-207 | the second half's calls are exactly `token0`'s metadata lookup followed by `token1`'s, and `token1`'s only when `token0`'s did not fail with an error; an uncached `token0` is first asked for its `decimals` |
| `Properties.PairCallsInOrder` | src/main.rs:200-207 | once both token addresses are read, a pair lookup's calls are exactly `token0`, `token1`, then `token0`'s metadata lookup, then `token1`'s unless `token0`'s failed with an error |
| `Properties.PairCallsNoRepeats` | src/main.rs:200-207 | a pair lookup whose two tokens differ makes no call twice: one round trip per accessor and address |
| `Properties.Erc20Memoized` | src/main.rs:171-187 | after a token resolves, looking it up again, whatever the chain now says, returns the same value, makes no call and changes nothing |
| `Properties.PairMemoized` | src/main.rs:195-215 | after a pair resolves, looking it up again, whatever the chain now says, returns the same value, makes no call and changes nothing |
| `Properties.Erc20FailureNotCached` | src/main.rs:176-179 | an unresolved token lookup (`Ok(None)` or `Err`) leaves the table unchanged after making calls, so asking again repeats the same calls and answer |
| `Properties.PairFailureNotCached` | src/main.rs:200-203 | a pair whose token addresses cannot be read leaves both tables unchanged after making calls, so asking again repeats the same calls and answer |
| `Properties.PairStoredWithoutMetadata` | src/main.rs:206-215 | when both token addresses are read and no token metadata reply fails to decode, the pair resolves and is stored; it carries a token's metadata iff that token was already cached or both its replies decode |
| `Properties.SharedTokenFetchedOnce` | src/main.rs:206-207 | after one pair resolves with a token's metadata, looking up any other pair makes no metadata call for that token |
| `Properties.RunWriteOnce` | src/main.rs:171-215 | over any sequence of token and pair lookups, against any chain states, both tables only grow and no stored entry ever changes; the call log only grows |
| `Properties.RunKeepsCoherent` | src/main.rs:171-215 | over any sequence of lookups the table invariant holds |
| `Properties.CachedTokenNeverQueried` | src/main.rs:171-174 | once a token is in the table, no later lookup of any kind asks the chain for its `decimals` or `symbol` |
| `Properties.CachedPairNeverQueried` | src/main.rs:195-198 | once a pair is in the table, no later lookup asks the chain for its `token0` or `token1` |
| `Resolver.ResolutionCache.constructor` | src/main.rs:104-105 | both tables start empty, with no call made |
| `Resolver.ResolutionCache.GetErc20` | src/main.rs:170-190 | the in-place lookup returns what `ResolveErc20` returns and leaves the token table it describes; the calls it logs are exactly those calls; the pair table is untouched; the invariant is kept |
| `Resolver.ResolutionCache.ReadTokens` | src/main.rs:200-204 | the in-place reading of the two token addresses returns what `Memo.ReadTokens` returns and logs exactly its calls; only the call log changes |
| `Resolver.ResolutionCache.StorePair` | src/main.rs:206-216 | the in-place second half, through two `GetErc20` calls, returns what `Memo.StorePair` returns and leaves both tables it describes; the calls it logs are exactly those calls; the invariant is kept |
| `Resolver.ResolutionCache.GetPair` | src/main.rs:194-217 | the in-place lookup, including its two nested `GetErc20` calls, returns what `ResolvePair` returns and leaves both tables it describes; the calls it logs are exactly those calls; the invariant is kept |

## Left out

- `main` (src/main.rs:99-151): reading `ALCHEMY_URL`, building the HTTP provider, fetching the block number and logs, decoding each log and printing. This is I/O. The one thing from it in the model is that all lookups share the same two tables, captured by `Run`. `main` stops at the first `Err` a lookup returns (the `?` at src/main.rs:128), while `Run` carries on past it; every property of `Run` holds for each of its prefixes, so it holds in particular for the lookups up to that first error.
- The price `r0 * 10^(d1 - d0) / r1` (src/main.rs:140-142): 64-bit floating-point arithmetic, including the infinity or NaN it gives for a zero reserve.
- The `sol!` interface declarations and ABI encoding and decoding (src/main.rs:29-94, 157, 163): macro-generated library code. They appear only as a `Provider` reply that is either decoded or undecodable.
- The JSON-RPC transport and async execution: calls are modelled as sequential. Each lookup sees one `Provider`, a snapshot of the chain. Different lookups may see different snapshots, but the chain cannot change between the calls of a single lookup. The snapshot also fixes transport failures within a lookup: when `token0 == token1` and the first `decimals` or `symbol` call fails at the node, the source asks again (src/main.rs:207) and a real node may then answer, giving a pair with `None` and `Some` for the same token. The model cannot show that case, and the `MetadataMatches` clause of `Memo.ResolvePair` and `Memo.StorePair` holds only because of the snapshot.
- The contents of the boxed error type: an `Error` carries only a description, chosen by the `Provider`.
- The `unwrap_or_default` and `unwrap` on log fields (src/main.rs:122-126): log decoding belongs to the client library.
