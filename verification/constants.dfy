/** The fixed sizes shared by the audio analysis and the map style
    (DiscoGlobe/ViewController.swift, class Constants). */
module Constants {

  /** Number of frequency bands, and also of country layers and tile groups. */
  const FrequencySplit: nat := 16

  /** Number of floats in one FFT buffer: 256 interleaved (real, imag) pairs. */
  const FftSize: nat := 512

  /** Number of buffer elements that fall into one band. */
  const SampleCount: nat := FftSize / FrequencySplit

  /** Postal codes of the countries; the country layers filter on slices of this list. */
  const CountryCodes: seq<string> := [
    "A", "AE", "AF", "AL", "AO", "AR", "ARM", "AU", "AZ", "B", "BD", "BF",
    "BG", "BI", "BiH", "BJ", "BN", "BO", "BR", "BS", "BT", "BW", "BY",
    "BZ", "CA", "CF", "CG", "CH", "CI", "CL", "CM", "CN", "CO", "CR", "CU",
    "CY", "CZ", "D", "DJ", "DK", "DO", "DRC", "DZ", "E", "EC", "EG", "ER",
    "ES", "EST", "ET", "F", "FIN", "FJ", "FK", "GA", "GB", "GE", "GH",
    "GL", "GM", "GN", "GQ", "GR", "GT", "GW", "GY", "HN", "HR", "HT", "HU",
    "I", "IND", "IRL", "IRN", "IRQ", "IS", "J", "KE", "KG", "KH", "KO",
    "KP", "KR", "KW", "KZ", "L", "LA", "LB", "LK", "LR", "LS", "LT", "LV",
    "LY", "MA", "MD", "ME", "MG", "ML", "MM", "MN", "MR", "MW", "MX", "MY",
    "MZ", "N", "NA", "NC", "NE", "NG", "NI", "NL", "NM", "NP", "NZ", "OM",
    "P", "PA", "PAL", "PE", "PG", "PH", "PK", "PL", "PR", "PY", "QA", "RO",
    "RS", "RUS", "RW", "S", "SA", "SB", "SD", "SK", "SL", "SLO", "SN",
    "SO", "SR", "SS", "SV", "SYR", "TD", "TG", "TH", "TJ", "TL", "TM",
    "TN", "TR", "TT", "TW", "TZ", "UA", "UG", "US", "UY", "UZ", "VE",
    "VN", "VU", "WS", "YE", "ZA", "ZM", "ZW"
  ]
}
