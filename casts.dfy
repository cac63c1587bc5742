/**
  The two float-to-count conversions the streaming code performs:
  `x as usize` (truncation) and `x.round() as usize`. Rust's float-to-integer
  `as` casts saturate: negative values and NaN become 0, values beyond the
  target's range become its maximum. The float product feeding them is taken
  as an exact real here.
*/
module Casts {

  /** The largest `usize` on a 64-bit target. */
  const USIZE_MAX: nat := 0xFFFF_FFFF_FFFF_FFFF

  /** `x as usize`: truncation toward zero, saturating at both ends. */
  function AsUsize(x: real): (n: nat)
    ensures n <= USIZE_MAX
    ensures x <= 0.0 ==> n == 0
    ensures 0.0 <= x < USIZE_MAX as real ==> n as real <= x < n as real + 1.0
    ensures USIZE_MAX as real <= x ==> n == USIZE_MAX
  {
    if x <= 0.0 then 0
    else if x >= USIZE_MAX as real then USIZE_MAX
    else x.Floor
  }

  /** `x.round() as usize`: round half away from zero, then the saturating cast. */
  function RoundAsUsize(x: real): (n: nat)
    ensures n <= USIZE_MAX
    ensures x <= 0.0 ==> n == 0
    ensures 0.0 <= x < USIZE_MAX as real ==> x - 0.5 < n as real <= x + 0.5
    ensures USIZE_MAX as real <= x ==> n == USIZE_MAX
  {
    if x <= 0.0 then 0
    else
      var r := (x + 0.5).Floor;
      if r >= USIZE_MAX then USIZE_MAX else r
  }

  /** Rounding never counts fewer frames than truncation, and at most one more. */
  lemma RoundIsTruncOrNext(x: real)
    ensures AsUsize(x) <= RoundAsUsize(x) <= AsUsize(x) + 1
  {
  }
}
