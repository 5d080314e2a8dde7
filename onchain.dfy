/**
 * The values the resolver works with and the one read-only contract call
 * it makes (`do_call`). The chain node and the ABI codec are not modelled:
 * a `Provider` value says, for each accessor and each contract address,
 * what the node and the decoder would give back.
 */
module Onchain {

  /** A 20-byte contract address. */
  newtype Address = n: int | 0 <= n < 0x1_0000_0000_0000_0000_0000_0000_0000_0000_0000_0000

  /** The `uint8` returned by `decimals()`. */
  newtype U8 = n: int | 0 <= n < 0x100

  datatype Option<+T> = None | Some(value: T)

  /** The boxed "catch all" error that `?` propagates. */
  datatype Error = Error(description: string)

  /** `Result<_, BDE>`, usable with `:-` as Rust's `?`. */
  datatype Result<+T> = Ok(value: T) | Err(error: Error) {
    predicate IsFailure() { Err? }

    function PropagateFailure<U>(): Result<U>
      requires Err?
    {
      Err(error)
    }

    function Extract(): T
      requires Ok?
    {
      value
    }
  }

  /** A lookup that produced a value: `Ok(Some(_))`. */
  predicate Resolved<T>(r: Result<Option<T>>) {
    r.Ok? && r.value.Some?
  }

  /** ERC-20 metadata of one token. */
  datatype Erc20 = Erc20(decimals: U8, symbol: string)

  /** A liquidity pair: its two tokens and, where it could be read, their metadata. */
  datatype Pair = Pair(token0: Address, token1: Address, erc20_0: Option<Erc20>, erc20_1: Option<Erc20>)

  /** The four contract accessors the resolver calls. */
  datatype CallKind = Decimals | Symbol | Token0 | Token1 {
    /** The ERC-20 accessors, as opposed to the pair accessors. */
    predicate IsTokenMetadata() {
      Decimals? || Symbol?
    }
  }

  /** One read-only call sent to the node: which accessor, on which contract. */
  datatype Call = Call(kind: CallKind, address: Address)

  /**
   * What one read-only call comes to: the node refused or could not be
   * reached, the node answered but the answer does not decode as the
   * accessor's return type, or it decoded to a value.
   */
  datatype Reply<T> = CallFailed | Undecodable(error: Error) | Decoded(value: T)

  /** The chain as the resolver sees it: the reply to each accessor at each address. */
  datatype Provider = Provider(
    decimals: Address -> Reply<U8>,
    symbol: Address -> Reply<string>,
    token0: Address -> Reply<Address>,
    token1: Address -> Reply<Address>)

  /**
   * `do_call`: a failed node call is not an error but "no value"; a decode
   * failure is an error that the caller propagates.
   */
  function DoCall<T>(reply: Reply<T>): (r: Result<Option<T>>)
    ensures r.Ok? && r.value.None? <==> reply.CallFailed?
    ensures r.Err? <==> reply.Undecodable?
    ensures reply.Undecodable? ==> r.error == reply.error
    ensures Resolved(r) <==> reply.Decoded?
    ensures reply.Decoded? ==> r.value.value == reply.value
  {
    match reply
    case CallFailed => Ok(None)
    case Undecodable(e) => Err(e)
    case Decoded(v) => Ok(Some(v))
  }
}
