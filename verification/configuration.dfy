/** The plugin's load-time configuration record and its defaults. */
module Config {
  import opened Numeric

  /**
   The configured UI effect, the consumable that opens the wallet, the
   accepted amount range and the per-sender cooldown in seconds.
   */
  datatype Configuration = Configuration(
    effectId: uint16,
    effectKey: int16,
    walletItemId: uint16,
    minTransferAmount: uint32,
    maxTransferAmount: uint32,
    cooldownSeconds: int32)

  /** Values written when no configuration file exists yet. */
  function LoadDefaults(): (c: Configuration)
    ensures c.effectId == UInt16Max && c.effectKey == Int16Min
    ensures c.walletItemId == UInt16Max
    ensures c.minTransferAmount == 10 && c.maxTransferAmount == 1000
    ensures c.minTransferAmount <= c.maxTransferAmount
    ensures c.cooldownSeconds == 60 && c.cooldownSeconds > 0
  {
    Configuration(
      effectId := UInt16Max,
      effectKey := Int16Min,
      walletItemId := UInt16Max,
      minTransferAmount := 10,
      maxTransferAmount := 1000,
      cooldownSeconds := 60)
  }
}
