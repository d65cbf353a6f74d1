/** Fixed-width integers, 32-byte identifiers and the failure types shared by
    the whole model of the AMM test-utils setup code. */
module Types {

  /** Rust's `u8`. */
  newtype U8 = x: int | 0 <= x < 0x100

  /** Rust's `u64`. */
  newtype U64 = x: int | 0 <= x < 0x1_0000_0000_0000_0000

  const U64Max: int := 0xFFFF_FFFF_FFFF_FFFF

  /** A `[u8; 32]` value. */
  type Bytes32 = s: seq<U8> | |s| == 32 witness seq(32, _ => 0)

  /** Thirty-two zero bytes: `Address::zeroed()`, `AssetId::default()`. */
  function Zeroed(): Bytes32 {
    seq(32, _ => 0)
  }

  datatype AssetId = AssetId(bytes: Bytes32)
  datatype ContractId = ContractId(bytes: Bytes32)
  datatype Address = Address(bytes: Bytes32)
  datatype Salt = Salt(bytes: Bytes32)

  /** The two reserve assets of one exchange, in the order the caller gives. */
  type AssetPair = (AssetId, AssetId)

  const DefaultAssetId: AssetId := AssetId(Zeroed())
  const ZeroAddress: Address := Address(Zeroed())

  datatype Option<+T> = None | Some(value: T)

  datatype Result<+T, +E> = Ok(value: T) | Err(error: E)

  /** The reasons the setup code panics (an `unwrap` on `None`, an
      arithmetic overflow in a debug build, an explicit `panic!`). */
  datatype Panic =
    | LengthUnderflow                    // `asset_ids.len() - 1` on an empty list
    | SeedAmountOverflow(index: nat)     // `100_000 * (i + 1)` exceeds `u64`
    | DeadlineOverflow(index: nat)       // `latest_block_height + 10` exceeds `u64`
    | AmountMissing(assetIndex: nat)     // `amounts.get(i).unwrap()` on a short list
    | ResourcesUnavailable(asset: AssetId) // the provider's coin query returned an error
    | ResourceTypeMismatch               // a spendable resource that is not a coin
}
