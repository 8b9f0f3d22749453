/** Android API levels and the version bands that decide which system-service call shape is used. */
module Sdk {

  /** `Build.VERSION_CODES.M` (Android 6.0). */
  const M: int := 23
  /** `Build.VERSION_CODES.O` (Android 8.0). */
  const O: int := 26
  /** `Build.VERSION_CODES.R` (Android 11). */
  const R: int := 30

  /** The four shapes of `IActivityManager.startService`. */
  datatype ServiceBand = ServiceFromR | ServiceFromO | ServiceFromM | ServiceBeforeM

  /** The API levels of each band, written as intervals. */
  predicate InServiceBand(sdk: int, b: ServiceBand)
  {
    match b
    case ServiceFromR => R <= sdk
    case ServiceFromO => O <= sdk < R
    case ServiceFromM => M <= sdk < O
    case ServiceBeforeM => sdk < M
  }

  /** The service band the `when` on `Build.VERSION.SDK_INT` picks: the first test that holds wins. */
  function ServiceBandOf(sdk: int): (b: ServiceBand)
    ensures InServiceBand(sdk, b)
  {
    if sdk >= R then ServiceFromR
    else if sdk >= O then ServiceFromO
    else if sdk >= M then ServiceFromM
    else ServiceBeforeM
  }

  /** The intervals do not overlap, so every API level lies in exactly one band: the one chosen. */
  lemma ServiceBandUnique(sdk: int, b: ServiceBand)
    ensures InServiceBand(sdk, b) <==> b == ServiceBandOf(sdk)
  {
  }

  /** How recent a band is: a newer API level never selects an older call shape. */
  function ServiceBandRank(b: ServiceBand): nat
  {
    match b
    case ServiceBeforeM => 0
    case ServiceFromM => 1
    case ServiceFromO => 2
    case ServiceFromR => 3
  }

  lemma ServiceBandMonotone(sdk1: int, sdk2: int)
    requires sdk1 <= sdk2
    ensures ServiceBandRank(ServiceBandOf(sdk1)) <= ServiceBandRank(ServiceBandOf(sdk2))
  {
  }

  /** The two shapes of `startActivity` and of `broadcastIntent`: the `...WithFeature` form from R on. */
  datatype FeatureBand = WithFeature | WithoutFeature

  function FeatureBandOf(sdk: int): (b: FeatureBand)
    ensures b == WithFeature <==> sdk >= R
  {
    if sdk >= R then WithFeature else WithoutFeature
  }
}
