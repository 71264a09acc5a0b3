/** The constants of the transaction manager; times are in milliseconds. */
module TxmLimits {
  const MAX_RETRY_ATTEMPTS := 5
  const MAX_OUT_OF_TIME := 2
  const REORG_RETRY_COUNT := 3
  const MAX_BROADCAST_RETRY_DURATION := 30_000
  const BROADCAST_DELAY_DURATION := 2_000
}
