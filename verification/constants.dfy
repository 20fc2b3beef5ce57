/** The shared constants the modelled code reads. */
module Constants {
  const WATCHDOG_INTERVAL_MS: nat := 2000
  const WATCHDOG_STALL_TICKS: nat := 4
  const HOME_RELEASES_CACHE_TTL: nat := 30 * 60 * 1000
  const ROW_HEIGHT: nat := 56
  const VIRTUALIZE_OVERSCAN: nat := 10
  const VIRTUALIZE_THRESHOLD: nat := 80
  const YTMUSIC_MAX_RETRIES: nat := 3
  const YTMUSIC_RETRY_DELAYS: seq<nat> := [1000, 3000, 8000]
}
