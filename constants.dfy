/** The configuration constants the core depends on (`Constants.swift`). */
module Constants {
  const Scheme := "https"
  const Host := "api.tcgdex.net"
  const Path := "/v2/en/cards"

  /** Image quality tokens and the image file extension. */
  const LowQuality := "low"
  const HighQuality := "high"
  const PngExtension := "png"

  /** The `UserDefaults` key under which the card list is persisted. */
  const CachedCardItemsKey := "cachedCardItems"
}
