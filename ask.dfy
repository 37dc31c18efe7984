/** The provider's fixed storage ask (`Provider.GetAsk`). */
module Ask {
  /** 64 GiB, in bytes. */
  const MaxPieceSize: nat := 64 * 1024 * 1024 * 1024

  datatype StorageAsk = StorageAsk(
    price: int,           // attoFIL per GiB per epoch (abi.TokenAmount)
    verifiedPrice: int,
    minPieceSize: nat,    // abi.PaddedPieceSize, a uint64
    maxPieceSize: nat,
    miner: string)        // the provider's on-chain address

  /**
   * The ask accepts any piece from 0 up to 64 GiB, a bound that fits the
   * unsigned 64-bit piece size, at a price of 1 for both verified and
   * unverified deals, on behalf of the provider's own address.
   */
  function GetAsk(address: string): (r: StorageAsk)
    ensures r.minPieceSize == 0 <= r.maxPieceSize
    ensures r.maxPieceSize == 68719476736 < 0x1_0000_0000_0000_0000
    ensures r.price == 1 && r.verifiedPrice == 1
    ensures r.miner == address
  {
    StorageAsk(1, 1, 0, MaxPieceSize, address)
  }
}
