/**
 * What the two lookups promise beyond a single call: the table invariant,
 * memoization, the uncached failures, partial pairs, and write-once tables
 * over any sequence of lookups sharing the same tables.
 */
module Properties {
  import opened Onchain
  import opened Memo

  /** The tokens whose metadata a pair carries. */
  function KnownTokens(p: Pair): set<Address> {
    (if p.erc20_0.Some? then {p.token0} else {}) + (if p.erc20_1.Some? then {p.token1} else {})
  }

  /** A token lookup keeps the table invariant. */
  lemma ResolveErc20KeepsCoherent(provider: Provider, erc20s: Erc20Table, pairs: PairTable, address: Address)
    requires Coherent(erc20s, pairs)
    ensures Coherent(ResolveErc20(provider, erc20s, address).erc20s, pairs)
    ensures address in erc20s ==> Resolved(ResolveErc20(provider, erc20s, address).result)
  {
  }

  /** A pair lookup keeps the table invariant. */
  lemma ResolvePairKeepsCoherent(provider: Provider, erc20s: Erc20Table, pairs: PairTable, address: Address)
    requires Coherent(erc20s, pairs)
    ensures var o := ResolvePair(provider, erc20s, pairs, address);
      Coherent(o.erc20s, o.pairs)
  {
  }

  /** Storing a pair once its token addresses are read keeps the table invariant. */
  lemma StorePairKeepsCoherent(provider: Provider, erc20s: Erc20Table, pairs: PairTable, address: Address,
                               token0: Address, token1: Address)
    requires Coherent(erc20s, pairs)
    requires address !in pairs
    ensures var o := StorePair(provider, erc20s, pairs, address, token0, token1);
      Coherent(o.erc20s, o.pairs)
  {
  }

  /** A resolved token lookup is answered from the table from then on, whatever the chain says. */
  lemma Erc20Memoized(provider: Provider, later: Provider, erc20s: Erc20Table, address: Address)
    requires Resolved(ResolveErc20(provider, erc20s, address).result)
    ensures var o := ResolveErc20(provider, erc20s, address);
      ResolveErc20(later, o.erc20s, address) == Erc20Outcome(o.result, o.erc20s, [])
  {
  }

  /** A resolved pair lookup is answered from the table from then on, whatever the chain says. */
  lemma PairMemoized(provider: Provider, later: Provider, erc20s: Erc20Table, pairs: PairTable, address: Address)
    requires Resolved(ResolvePair(provider, erc20s, pairs, address).result)
    ensures var o := ResolvePair(provider, erc20s, pairs, address);
      ResolvePair(later, o.erc20s, o.pairs, address) == PairOutcome(o.result, o.erc20s, o.pairs, [])
  {
  }

  /**
   * A token whose metadata could not be read is not remembered: asking
   * again with the same chain makes the same calls and gets the same answer.
   */
  lemma Erc20FailureNotCached(provider: Provider, erc20s: Erc20Table, address: Address)
    requires address !in erc20s
    requires !Resolved(ResolveErc20(provider, erc20s, address).result)
    ensures var o := ResolveErc20(provider, erc20s, address);
      o.erc20s == erc20s && o.calls != [] && ResolveErc20(provider, o.erc20s, address) == o
  {
  }

  /**
   * A pair whose token addresses could not be read is not remembered:
   * asking again with the same chain makes the same calls and gets the same answer.
   */
  lemma PairFailureNotCached(provider: Provider, erc20s: Erc20Table, pairs: PairTable, address: Address)
    requires address !in pairs
    requires !BothTokens(provider, address)
    ensures var o := ResolvePair(provider, erc20s, pairs, address);
      !Resolved(o.result) && o.erc20s == erc20s && o.pairs == pairs && o.calls != [] &&
      ResolvePair(provider, o.erc20s, o.pairs, address) == o
  {
  }

  /**
   * A pair whose token addresses are read is stored even when a token's
   * metadata cannot be read; it then carries no metadata for that token.
   */
  lemma PairStoredWithoutMetadata(provider: Provider, erc20s: Erc20Table, pairs: PairTable, address: Address)
    requires Coherent(erc20s, pairs)
    requires address !in pairs && BothTokens(provider, address)
    requires var t0, t1 := provider.token0(address).value, provider.token1(address).value;
      (t0 in erc20s || NoDecodeError(provider, t0)) && (t1 in erc20s || NoDecodeError(provider, t1))
    ensures var o := ResolvePair(provider, erc20s, pairs, address);
      Resolved(o.result) && address in o.pairs && o.pairs[address] == o.result.value
    ensures var p := ResolvePair(provider, erc20s, pairs, address).result.value.value;
      (p.erc20_0.Some? <==> p.token0 in erc20s || Readable(provider, p.token0)) &&
      (p.erc20_1.Some? <==> p.token1 in erc20s || Readable(provider, p.token1))
  {
  }

  /**
   * The calls of a pair's second half, in order: `token0`'s metadata lookup,
   * then `token1`'s unless `token0`'s failed with an error.
   */
  lemma StorePairCallsInOrder(provider: Provider, erc20s: Erc20Table, pairs: PairTable, address: Address,
                              token0: Address, token1: Address)
    ensures var o, o0 := StorePair(provider, erc20s, pairs, address, token0, token1), ResolveErc20(provider, erc20s, token0);
      o.calls == o0.calls + (if o0.result.Err? then [] else ResolveErc20(provider, o0.erc20s, token1).calls)
    ensures token0 !in erc20s ==>
      var o := StorePair(provider, erc20s, pairs, address, token0, token1);
      |o.calls| >= 1 && o.calls[0] == Call(Decimals, token0)
  {
  }

  /**
   * The calls of a pair lookup that reads both token addresses, in order:
   * `token0`, `token1`, then the two tokens' metadata lookups one after the other.
   */
  lemma PairCallsInOrder(provider: Provider, erc20s: Erc20Table, pairs: PairTable, address: Address)
    requires address !in pairs && BothTokens(provider, address)
    ensures var o, t0, t1 := ResolvePair(provider, erc20s, pairs, address),
                             provider.token0(address).value, provider.token1(address).value;
      var o0 := ResolveErc20(provider, erc20s, t0);
      o.calls == [Call(Token0, address), Call(Token1, address)] + o0.calls +
                 (if o0.result.Err? then [] else ResolveErc20(provider, o0.erc20s, t1).calls)
  {
  }

  /** A call list in which no call appears twice. */
  ghost predicate NoRepeats(calls: seq<Call>) {
    forall i, j :: 0 <= i < j < |calls| ==> calls[i] != calls[j]
  }

  /**
   * One round trip per accessor and address: a pair lookup of two different
   * tokens never makes the same call twice.
   */
  lemma PairCallsNoRepeats(provider: Provider, erc20s: Erc20Table, pairs: PairTable, address: Address)
    requires address !in pairs && BothTokens(provider, address)
    requires provider.token0(address).value != provider.token1(address).value
    ensures NoRepeats(ResolvePair(provider, erc20s, pairs, address).calls)
  {
    var t0, t1 := provider.token0(address).value, provider.token1(address).value;
    PairCallsInOrder(provider, erc20s, pairs, address);
    var o0 := ResolveErc20(provider, erc20s, t0);
    var rest := if o0.result.Err? then [] else ResolveErc20(provider, o0.erc20s, t1).calls;
    // The three parts are about the pair, about `token0` and about `token1`.
    var head := [Call(Token0, address), Call(Token1, address)];
    Erc20CallsNoRepeats(provider, erc20s, t0);
    ConcatNoRepeats(head, o0.calls);
    assert forall c :: c in head + o0.calls ==> !c.kind.IsTokenMetadata() || c.address == t0;
    if o0.result.Ok? {
      Erc20CallsNoRepeats(provider, o0.erc20s, t1);
      assert forall c :: c in rest ==> c.kind.IsTokenMetadata() && c.address == t1;
    }
    ConcatNoRepeats(head + o0.calls, rest);
  }

  /** A token lookup asks each of its two accessors at most once. */
  lemma Erc20CallsNoRepeats(provider: Provider, erc20s: Erc20Table, address: Address)
    ensures NoRepeats(ResolveErc20(provider, erc20s, address).calls)
  {
  }

  /** Two call lists without repeats and without a common call join into one without repeats. */
  lemma ConcatNoRepeats(a: seq<Call>, b: seq<Call>)
    requires NoRepeats(a) && NoRepeats(b)
    requires forall c :: c in a ==> c !in b
    ensures NoRepeats(a + b)
  {
    forall i, j | 0 <= i < j < |a + b|
      ensures (a + b)[i] != (a + b)[j]
    {
      if i < |a| <= j {
        assert (a + b)[i] in a && (a + b)[j] in b;
      }
    }
  }

  /**
   * Two pairs that share a token: once one pair has been resolved with that
   * token's metadata, looking up the other pair asks nothing about the token.
   */
  lemma SharedTokenFetchedOnce(provider: Provider, later: Provider, erc20s: Erc20Table, pairs: PairTable, first: Address, second: Address)
    requires Coherent(erc20s, pairs)
    requires Resolved(ResolvePair(provider, erc20s, pairs, first).result)
    ensures var o := ResolvePair(provider, erc20s, pairs, first);
      forall c :: c in ResolvePair(later, o.erc20s, o.pairs, second).calls && c.kind.IsTokenMetadata() ==>
        c.address !in KnownTokens(o.result.value.value)
  {
  }

  /** One lookup the program makes, against the chain as it stands at that moment. */
  datatype Request = TokenRequest(provider: Provider, address: Address) | PairRequest(provider: Provider, address: Address)

  /** The two shared tables and every call made so far. */
  datatype Tables = Tables(erc20s: Erc20Table, pairs: PairTable, calls: seq<Call>)

  /** One lookup on the shared tables. */
  function Step(s: Tables, r: Request): (n: Tables)
    ensures Extends(s.erc20s, n.erc20s) && Extends(s.pairs, n.pairs)
    ensures s.calls <= n.calls
    ensures forall i :: |s.calls| <= i < |n.calls| ==>
      if n.calls[i].kind.IsTokenMetadata() then n.calls[i].address !in s.erc20s else n.calls[i].address !in s.pairs
  {
    match r
    case TokenRequest(provider, address) =>
      var o := ResolveErc20(provider, s.erc20s, address);
      Tables(o.erc20s, s.pairs, s.calls + o.calls)
    case PairRequest(provider, address) =>
      var o := ResolvePair(provider, s.erc20s, s.pairs, address);
      Tables(o.erc20s, o.pairs, s.calls + o.calls)
  }

  /** A sequence of lookups, one after the other, on the same tables. */
  function Run(s: Tables, rs: seq<Request>): Tables
    decreases |rs|
  {
    if rs == [] then s else Run(Step(s, rs[0]), rs[1..])
  }

  /** Over any sequence of lookups the tables only grow and no entry ever changes. */
  lemma {:induction false} RunWriteOnce(s: Tables, rs: seq<Request>)
    ensures Extends(s.erc20s, Run(s, rs).erc20s) && Extends(s.pairs, Run(s, rs).pairs)
    ensures s.calls <= Run(s, rs).calls
    decreases |rs|
  {
    if rs != [] {
      RunWriteOnce(Step(s, rs[0]), rs[1..]);
    }
  }

  /** Over any sequence of lookups the table invariant holds. */
  lemma {:induction false} RunKeepsCoherent(s: Tables, rs: seq<Request>)
    requires Coherent(s.erc20s, s.pairs)
    ensures Coherent(Run(s, rs).erc20s, Run(s, rs).pairs)
    decreases |rs|
  {
    if rs != [] {
      match rs[0] {
        case TokenRequest(provider, address) =>
          ResolveErc20KeepsCoherent(provider, s.erc20s, s.pairs, address);
        case PairRequest(provider, address) =>
          ResolvePairKeepsCoherent(provider, s.erc20s, s.pairs, address);
      }
      RunKeepsCoherent(Step(s, rs[0]), rs[1..]);
    }
  }

  /** Once a token is in the table, no later lookup asks the chain for its metadata. */
  lemma {:induction false} CachedTokenNeverQueried(s: Tables, rs: seq<Request>, token: Address)
    requires token in s.erc20s
    ensures var n := Run(s, rs);
      forall i :: |s.calls| <= i < |n.calls| && n.calls[i].kind.IsTokenMetadata() ==> n.calls[i].address != token
    decreases |rs|
  {
    if rs != [] {
      var s' := Step(s, rs[0]);
      CachedTokenNeverQueried(s', rs[1..], token);
      RunWriteOnce(s', rs[1..]);
    }
  }

  /** Once a pair is in the table, no later lookup asks the chain for its tokens. */
  lemma {:induction false} CachedPairNeverQueried(s: Tables, rs: seq<Request>, pair: Address)
    requires pair in s.pairs
    ensures var n := Run(s, rs);
      forall i :: |s.calls| <= i < |n.calls| && !n.calls[i].kind.IsTokenMetadata() ==> n.calls[i].address != pair
    decreases |rs|
  {
    if rs != [] {
      var s' := Step(s, rs[0]);
      CachedPairNeverQueried(s', rs[1..], pair);
      RunWriteOnce(s', rs[1..]);
    }
  }
}
