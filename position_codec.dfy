/**
 * Fixed-point position codec: a motor position is a percentage with
 * 10 fractional bits (1 percent == 1024 raw units).
 */
module PositionCodec {

  /** Number of fractional bits of a raw position. */
  const PosShift: nat := 10
  /** 1 << PosShift. */
  const PosScale: int := 1024

  /** `sae_pos_raw`: percent << 10. The result has no fractional part. */
  function Raw(percent: int): (raw: int)
    ensures raw % PosScale == 0
    ensures raw < 0 <==> percent < 0
  {
    percent * PosScale
  }

  /**
   * `sae_pos_percent`: raw >> 10, an arithmetic shift, so the result is the
   * floor of raw / 1024 (a negative raw position gives a negative percent).
   */
  function Percent(raw: int): (p: int)
    ensures p * PosScale <= raw < p * PosScale + PosScale
  {
    raw / PosScale
  }

  /** Converting a whole percentage to raw form and back gives it back. */
  lemma RoundTrip(percent: int)
    ensures Percent(Raw(percent)) == percent
  {
  }

  /** The percent of a raw position is negative exactly when the raw position is. */
  lemma PercentNegative(raw: int)
    ensures Percent(raw) < 0 <==> raw < 0
  {
  }

  /** Percent never decreases when the raw position grows. */
  lemma PercentMonotone(a: int, b: int)
    requires a <= b
    ensures Percent(a) <= Percent(b)
  {
  }

  /** The percent lies in [lo, hi] exactly when the raw position lies in [Raw(lo), Raw(hi + 1)). */
  lemma PercentWithin(raw: int, lo: int, hi: int)
    ensures lo <= Percent(raw) <= hi <==> Raw(lo) <= raw < Raw(hi + 1)
  {
  }
}
