/** What a settlement charges, the same in every backend and host. */
module Costs {
  import opened Int64
  import opened Options

  /** A negative actual cost is charged as zero. */
  function NonNegative(x: int): int {
    if x < 0 then 0 else x
  }

  /** What a successful run is charged: what it reported, or else the estimate. */
  function Actual(estimate: int64, reported: Option<int64>): (actual: int64)
    requires estimate >= 0
    ensures actual >= 0
  {
    if reported.Some? then NonNegative(reported.value as int) as int64 else estimate
  }
}
