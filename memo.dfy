/**
 * The two memoizing lookups as functions from the tables they find to the
 * answer, the tables they leave and the calls they make; the invariant the
 * tables keep; and what holds over any sequence of lookups.
 */
module Memo {
  import opened Onchain

  /** `HashMap<Address, Option<Erc20>>`: token address to token metadata. */
  type Erc20Table = map<Address, Option<Erc20>>

  /** `HashMap<Address, Option<Pair>>`: pair address to pair data. */
  type PairTable = map<Address, Option<Pair>>

  datatype Erc20Outcome = Erc20Outcome(result: Result<Option<Erc20>>, erc20s: Erc20Table, calls: seq<Call>)

  datatype TokensOutcome = TokensOutcome(result: Result<Option<(Address, Address)>>, calls: seq<Call>)

  datatype PairOutcome = PairOutcome(result: Result<Option<Pair>>, erc20s: Erc20Table, pairs: PairTable, calls: seq<Call>)

  /** Every entry of `before` is still in `after`, with the same value. */
  ghost predicate Extends<K, V>(before: map<K, V>, after: map<K, V>) {
    forall k :: k in before ==> k in after && after[k] == before[k]
  }

  /** The metadata the token table holds for `token`, `None` when it holds none. */
  function Cached(erc20s: Erc20Table, token: Address): Option<Erc20> {
    if token in erc20s then erc20s[token] else None
  }

  /** Both token addresses of the pair at `address` can be read. */
  predicate BothTokens(provider: Provider, address: Address) {
    provider.token0(address).Decoded? && provider.token1(address).Decoded?
  }

  /** Both replies of a token's metadata decode, or one is a failed call: no decode error. */
  predicate NoDecodeError(provider: Provider, token: Address) {
    !provider.decimals(token).Undecodable? &&
    !(provider.decimals(token).Decoded? && provider.symbol(token).Undecodable?)
  }

  /** Both metadata replies of a token decode. */
  predicate Readable(provider: Provider, token: Address) {
    provider.decimals(token).Decoded? && provider.symbol(token).Decoded?
  }

  /** A pair carries exactly the metadata the token table holds for its tokens. */
  ghost predicate MetadataMatches(erc20s: Erc20Table, p: Pair) {
    p.erc20_0 == Cached(erc20s, p.token0) && p.erc20_1 == Cached(erc20s, p.token1)
  }

  /** The metadata a pair does carry is what the token table holds for that token. */
  ghost predicate MetadataAgrees(erc20s: Erc20Table, p: Pair) {
    (p.erc20_0.Some? ==> Cached(erc20s, p.token0) == p.erc20_0) &&
    (p.erc20_1.Some? ==> Cached(erc20s, p.token1) == p.erc20_1)
  }

  /**
   * The invariant of the two tables: only resolved lookups are stored, and
   * a stored pair agrees with the token table on the metadata it carries.
   */
  ghost predicate Coherent(erc20s: Erc20Table, pairs: PairTable) {
    (forall a :: a in erc20s ==> erc20s[a].Some?) &&
    (forall a :: a in pairs ==> pairs[a].Some? && MetadataAgrees(erc20s, pairs[a].value))
  }

  /** `get_erc20`: answer from the table, or read `decimals` then `symbol` and store both. */
  function ResolveErc20(provider: Provider, erc20s: Erc20Table, address: Address): (o: Erc20Outcome)
    // A hit answers the stored value, leaves the table alone and calls nothing.
    ensures address in erc20s ==> o == Erc20Outcome(Ok(erc20s[address]), erc20s, [])
    // Calls go to this token only, and only on a miss.
    ensures forall c :: c in o.calls ==> c.address == address && c.kind.IsTokenMetadata() && address !in erc20s
    // On a miss `decimals` is called first and `symbol` only once `decimals` has decoded.
    ensures address !in erc20s ==>
      o.calls == if provider.decimals(address).Decoded?
                 then [Call(Decimals, address), Call(Symbol, address)]
                 else [Call(Decimals, address)]
    // On a miss the lookup resolves exactly when both replies decode, to their values, and is stored.
    ensures address !in erc20s ==>
      (Resolved(o.result) <==> provider.decimals(address).Decoded? && provider.symbol(address).Decoded?)
    ensures address !in erc20s && Resolved(o.result) ==>
      o.result.value == Some(Erc20(provider.decimals(address).value, provider.symbol(address).value)) &&
      o.erc20s == erc20s[address := o.result.value]
    // On a miss the lookup fails with an error exactly when a reply it reached does not decode.
    ensures address !in erc20s ==>
      (o.result.Err? <==>
        provider.decimals(address).Undecodable? ||
        (provider.decimals(address).Decoded? && provider.symbol(address).Undecodable?))
    // Nothing but a resolved lookup is ever stored.
    ensures !Resolved(o.result) ==> o.erc20s == erc20s
  {
    if address in erc20s then
      Erc20Outcome(Ok(erc20s[address]), erc20s, [])
    else
      var first := [Call(Decimals, address)];
      match DoCall(provider.decimals(address))
      case Err(e) => Erc20Outcome(Err(e), erc20s, first)
      case Ok(None) => Erc20Outcome(Ok(None), erc20s, first)
      case Ok(Some(decimals)) =>
        var both := first + [Call(Symbol, address)];
        match DoCall(provider.symbol(address))
        case Err(e) => Erc20Outcome(Err(e), erc20s, both)
        case Ok(None) => Erc20Outcome(Ok(None), erc20s, both)
        case Ok(Some(symbol)) =>
          var erc20 := Some(Erc20(decimals, symbol));
          Erc20Outcome(Ok(erc20), erc20s[address := erc20], both)
  }

  /** The first half of `get_pair` on a miss: read `token0`, then `token1`. */
  function ReadTokens(provider: Provider, address: Address): (o: TokensOutcome)
    // `token0` is called first, and `token1` only once `token0` has decoded.
    ensures o.calls == if provider.token0(address).Decoded?
                       then [Call(Token0, address), Call(Token1, address)]
                       else [Call(Token0, address)]
    // Both addresses are read exactly when both replies decode.
    ensures Resolved(o.result) <==> BothTokens(provider, address)
    ensures Resolved(o.result) ==>
      o.result.value.value == (provider.token0(address).value, provider.token1(address).value)
    // The lookup fails with an error exactly when a reply it reached does not decode.
    ensures o.result.Err? <==>
      provider.token0(address).Undecodable? ||
      (provider.token0(address).Decoded? && provider.token1(address).Undecodable?)
  {
    var first := [Call(Token0, address)];
    match DoCall(provider.token0(address))
    case Err(e) => TokensOutcome(Err(e), first)
    case Ok(None) => TokensOutcome(Ok(None), first)
    case Ok(Some(token0)) =>
      var both := first + [Call(Token1, address)];
      match DoCall(provider.token1(address))
      case Err(e) => TokensOutcome(Err(e), both)
      case Ok(None) => TokensOutcome(Ok(None), both)
      case Ok(Some(token1)) => TokensOutcome(Ok(Some((token0, token1))), both)
  }

  /**
   * The second half of `get_pair`, once both token addresses are read: look
   * up each token's metadata, propagate a decode error, and store the pair.
   */
  function StorePair(provider: Provider, erc20s: Erc20Table, pairs: PairTable, address: Address,
                     token0: Address, token1: Address): (o: PairOutcome)
    // Only token metadata is asked for, only for these two tokens, and only for tokens the table does not hold.
    ensures forall c :: c in o.calls ==>
      c.kind.IsTokenMetadata() && (c.address == token0 || c.address == token1) && c.address !in erc20s
    // A decode error on `token0` stops the lookup before `token1` is asked about, and stores nothing.
    ensures token0 !in erc20s && !NoDecodeError(provider, token0) ==>
      o.erc20s == erc20s && forall c :: c in o.calls ==> c.address == token0
    // A readable token is stored: `token0` always, `token1` whenever the lookup does not fail.
    ensures token0 !in erc20s && Readable(provider, token0) ==> token0 in o.erc20s
    ensures o.result.Ok? && token1 !in erc20s && Readable(provider, token1) ==> token1 in o.erc20s
    // The lookup fails exactly when the metadata of a token not yet in the table fails to decode.
    ensures o.result.Err? <==>
      (token0 !in erc20s && !NoDecodeError(provider, token0)) || (token1 !in erc20s && !NoDecodeError(provider, token1))
    // Otherwise the pair of these two tokens is returned and stored, with what the token table then holds.
    ensures o.result.Ok? ==>
      o.result.value.Some? && o.result.value.value.token0 == token0 && o.result.value.value.token1 == token1 &&
      MetadataMatches(o.erc20s, o.result.value.value) &&
      o.pairs == pairs[address := o.result.value]
    ensures o.result.Err? ==> o.pairs == pairs
    // The token table only grows, at these two tokens, with the metadata read from the chain.
    ensures Extends(erc20s, o.erc20s)
    ensures forall a :: a in o.erc20s && a !in erc20s ==>
      (a == token0 || a == token1) && Readable(provider, a) &&
      o.erc20s[a] == Some(Erc20(provider.decimals(a).value, provider.symbol(a).value))
  {
    var o0 := ResolveErc20(provider, erc20s, token0);
    match o0.result
    case Err(e) => PairOutcome(Err(e), o0.erc20s, pairs, o0.calls)
    case Ok(erc20_0) =>
      var o1 := ResolveErc20(provider, o0.erc20s, token1);
      match o1.result
      case Err(e) => PairOutcome(Err(e), o1.erc20s, pairs, o0.calls + o1.calls)
      case Ok(erc20_1) =>
        var pair := Some(Pair(token0, token1, erc20_0, erc20_1));
        PairOutcome(Ok(pair), o1.erc20s, pairs[address := pair], o0.calls + o1.calls)
  }

  /**
   * `get_pair`: answer from the pair table, or read `token0` then `token1`,
   * look up both tokens' metadata, and store the pair.
   */
  function ResolvePair(provider: Provider, erc20s: Erc20Table, pairs: PairTable, address: Address): (o: PairOutcome)
    // A hit answers the stored value, leaves both tables alone and calls nothing.
    ensures address in pairs ==> o == PairOutcome(Ok(pairs[address]), erc20s, pairs, [])
    // Pair accessors are called on this pair only, and only on a miss.
    ensures forall c :: c in o.calls && !c.kind.IsTokenMetadata() ==> c.address == address && address !in pairs
    // On a miss `token0` is called first and `token1` second, once `token0` has decoded
    // (the next clause gives the calls when a token address cannot be read).
    ensures address !in pairs && BothTokens(provider, address) ==>
      |o.calls| >= 2 && o.calls[0] == Call(Token0, address) && o.calls[1] == Call(Token1, address)
    // Token metadata is asked for this pair's tokens only, and never for a token the table already holds.
    ensures forall c :: c in o.calls && c.kind.IsTokenMetadata() ==>
      c.address !in erc20s &&
      (provider.token0(address) == Decoded(c.address) || provider.token1(address) == Decoded(c.address))
    // If a token address cannot be read, nothing is stored and no token metadata is asked for;
    // the lookup fails with an error exactly when a reply it reached does not decode.
    ensures address !in pairs && !BothTokens(provider, address) ==>
      o.erc20s == erc20s && o.pairs == pairs && !Resolved(o.result) &&
      o.calls == (if provider.token0(address).Decoded? then [Call(Token0, address), Call(Token1, address)]
                  else [Call(Token0, address)]) &&
      (o.result.Err? <==>
        provider.token0(address).Undecodable? ||
        (provider.token0(address).Decoded? && provider.token1(address).Undecodable?))
    // Once both token addresses are read the pair resolves, whatever its tokens' metadata,
    // unless the metadata of a token not yet in the table fails to decode.
    ensures address !in pairs && BothTokens(provider, address) ==> (o.result.Ok? <==> Resolved(o.result))
    ensures address !in pairs && BothTokens(provider, address) ==>
      var t0, t1 := provider.token0(address).value, provider.token1(address).value;
      (o.result.Err? <==>
        (t0 !in erc20s && !NoDecodeError(provider, t0)) || (t1 !in erc20s && !NoDecodeError(provider, t1)))
    // Once both token addresses are read, a decode error on `token0` stops before `token1` and
    // stores nothing; a readable `token0` is stored whatever happens to `token1`, and a readable
    // `token1` whenever the lookup does not fail.
    ensures address !in pairs && BothTokens(provider, address) ==>
      var t0, t1 := provider.token0(address).value, provider.token1(address).value;
      (t0 !in erc20s && !NoDecodeError(provider, t0) ==>
        o.erc20s == erc20s && forall c :: c in o.calls && c.kind.IsTokenMetadata() ==> c.address == t0) &&
      (t0 !in erc20s && Readable(provider, t0) ==> t0 in o.erc20s) &&
      (o.result.Ok? && t1 !in erc20s && Readable(provider, t1) ==> t1 in o.erc20s)
    // The token table only grows, and only at this pair's tokens, with the metadata read from the chain.
    ensures Extends(erc20s, o.erc20s)
    ensures forall a :: a in o.erc20s && a !in erc20s ==>
      Readable(provider, a) &&
      o.erc20s[a] == Some(Erc20(provider.decimals(a).value, provider.symbol(a).value)) &&
      (provider.token0(address) == Decoded(a) || provider.token1(address) == Decoded(a))
    // The pair table changes only at this pair: a resolved miss is always stored, anything else stores nothing.
    ensures address !in pairs && Resolved(o.result) ==> o.pairs == pairs[address := o.result.value]
    ensures !Resolved(o.result) || address in pairs ==> o.pairs == pairs
    // A resolved pair names the tokens read from the chain and carries what the token table holds for them.
    ensures address !in pairs && Resolved(o.result) ==>
      provider.token0(address) == Decoded(o.result.value.value.token0) &&
      provider.token1(address) == Decoded(o.result.value.value.token1) &&
      MetadataMatches(o.erc20s, o.result.value.value)
  {
    if address in pairs then
      PairOutcome(Ok(pairs[address]), erc20s, pairs, [])
    else
      var t := ReadTokens(provider, address);
      match t.result
      case Err(e) => PairOutcome(Err(e), erc20s, pairs, t.calls)
      case Ok(None) => PairOutcome(Ok(None), erc20s, pairs, t.calls)
      case Ok(Some((token0, token1))) =>
        var o := StorePair(provider, erc20s, pairs, address, token0, token1);
        PairOutcome(o.result, o.erc20s, o.pairs, t.calls + o.calls)
  }
}
