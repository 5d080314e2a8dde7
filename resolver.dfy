/**
 * The two lookups as the program runs them: methods that update the two
 * shared tables in place, early-return on a missing value and propagate a
 * decode error with `:-`. Each is proved against its function in `Memo`.
 */
module Resolver {
  import opened Onchain
  import opened Memo
  import Properties

  /** The pair of `HashMap`s that every lookup reads and updates. */
  class ResolutionCache {
    var erc20s: Erc20Table
    var pairs: PairTable
    /** Every read-only call made so far, in order. */
    ghost var calls: seq<Call>

    ghost predicate Valid()
      reads this`erc20s, this`pairs
    {
      Coherent(erc20s, pairs)
    }

    /** Two empty tables, before any call. */
    constructor ()
      ensures Valid()
      ensures erc20s == map[] && pairs == map[] && calls == []
    {
      erc20s := map[];
      pairs := map[];
      calls := [];
    }

    /** `get_erc20`. */
    method GetErc20(provider: Provider, address: Address) returns (r: Result<Option<Erc20>>)
      requires Valid()
      modifies this
      ensures Valid()
      ensures var o := ResolveErc20(provider, old(erc20s), address);
        r == o.result && erc20s == o.erc20s && calls == old(calls) + o.calls
      ensures pairs == old(pairs)
    {
      Properties.ResolveErc20KeepsCoherent(provider, erc20s, pairs, address);
      if address in erc20s {
        // A hit: answer from the table, with no call.
        return Ok(erc20s[address]);
      }

      calls := calls + [Call(Decimals, address)];
      var decimals :- DoCall(provider.decimals(address));
      if decimals.None? {
        return Ok(None);
      }

      calls := calls + [Call(Symbol, address)];
      var symbol :- DoCall(provider.symbol(address));
      if symbol.None? {
        return Ok(None);
      }

      var erc20 := Some(Erc20(decimals.value, symbol.value));
      erc20s := erc20s[address := erc20];
      return Ok(erc20);
    }

    /** `get_pair`. */
    method GetPair(provider: Provider, address: Address) returns (r: Result<Option<Pair>>)
      requires Valid()
      modifies this
      ensures Valid()
      ensures var o := ResolvePair(provider, old(erc20s), old(pairs), address);
        r == o.result && erc20s == o.erc20s && pairs == o.pairs && calls == old(calls) + o.calls
    {
      if address in pairs {
        // A hit: answer from the table, with no call.
        return Ok(pairs[address]);
      }

      var tokens :- ReadTokens(provider, address);
      if tokens.None? {
        return Ok(None);
      }

      var (token0, token1) := tokens.value;
      ghost var read := Memo.ReadTokens(provider, address).calls;
      ghost var stored := Memo.StorePair(provider, erc20s, pairs, address, token0, token1).calls;
      r := StorePair(provider, address, token0, token1);
      // The log grew by both halves' calls, one after the other.
      assert calls == old(calls) + (read + stored);
    }

    /** The first half of `get_pair` on a miss: read the pair's two token addresses. */
    method ReadTokens(provider: Provider, address: Address) returns (r: Result<Option<(Address, Address)>>)
      modifies this`calls
      ensures var o := Memo.ReadTokens(provider, address);
        r == o.result && calls == old(calls) + o.calls
    {
      calls := calls + [Call(Token0, address)];
      var token0 :- DoCall(provider.token0(address));
      if token0.None? {
        return Ok(None);
      }

      calls := calls + [Call(Token1, address)];
      var token1 :- DoCall(provider.token1(address));
      if token1.None? {
        return Ok(None);
      }

      return Ok(Some((token0.value, token1.value)));
    }

    /** The second half of `get_pair`: look up both tokens' metadata and store the pair. */
    method StorePair(provider: Provider, address: Address, token0: Address, token1: Address)
      returns (r: Result<Option<Pair>>)
      requires Valid()
      requires address !in pairs
      modifies this
      ensures Valid()
      ensures var o := Memo.StorePair(provider, old(erc20s), old(pairs), address, token0, token1);
        r == o.result && erc20s == o.erc20s && pairs == o.pairs && calls == old(calls) + o.calls
    {
      Properties.StorePairKeepsCoherent(provider, erc20s, pairs, address, token0, token1);
      var erc20_0 :- GetErc20(provider, token0);
      var erc20_1 :- GetErc20(provider, token1);

      var pair := Some(Pair(token0, token1, erc20_0, erc20_1));
      pairs := pairs[address := pair];
      return Ok(pair);
    }
  }
}
