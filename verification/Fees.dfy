/** Basis-point arithmetic of the escrow contract: platform fees, volume tiers and splits. */
module Fees {
  import opened Prelude

  const MAX_PLATFORM_FEE_BPS: nat := 1000

  datatype VolumeTier = VolumeTier(threshold: nat, discount: nat)

  /** The platform's cut of an amount: a product that saturates at i128, then a truncating division. */
  function CalculateFee(amount: int, bps: nat): int {
    TruncDiv(Saturate(amount * bps), BPS)
  }

  /** A saturating subtraction over i128. */
  function SatSub(a: int, b: int): int {
    Saturate(a - b)
  }

  function FeeSum(parts: seq<int>, bps: nat): int {
    if parts == [] then 0 else CalculateFee(parts[0], bps) + FeeSum(parts[1..], bps)
  }

  function AmountSum(parts: seq<int>): int {
    if parts == [] then 0 else parts[0] + AmountSum(parts[1..])
  }

  lemma ProductGrows(a: int, b: int, c: int, d: int)
    requires 0 <= a <= c && 0 <= b <= d
    ensures 0 <= a * b <= c * d
  {
    assert c * d == a * b + (c - a) * b + c * (d - b);
  }

  /** A fee lies between nothing and what it is taken from, for every i128, saturated or not. */
  lemma FeeWithinAmount(amount: int, bps: nat)
    requires I128_MIN <= amount <= I128_MAX && bps <= BPS
    ensures 0 <= amount ==> 0 <= CalculateFee(amount, bps) <= amount
    ensures amount <= 0 ==> amount <= CalculateFee(amount, bps) <= 0
  {
    if amount >= 0 {
      ProductGrows(amount, bps, amount, BPS);
    } else {
      ProductGrows(-amount, bps, -amount, BPS);
      assert amount * bps == -(-amount * bps);
    }
  }

  /** The fee grows with the amount and with the rate, also across the saturation point. */
  lemma FeeMonotone(a: int, b: int, x: nat, y: nat)
    requires 0 <= a <= b && x <= y
    ensures CalculateFee(a, x) <= CalculateFee(b, y)
  {
    ProductGrows(a, x, b, y);
  }

  /** A rate of at most ten per cent takes at most a tenth. */
  lemma FeeAtMostTenth(amount: int, bps: nat)
    requires 0 <= amount && bps <= MAX_PLATFORM_FEE_BPS
    ensures 10 * CalculateFee(amount, bps) <= amount
  {
    ProductGrows(amount, bps, amount, MAX_PLATFORM_FEE_BPS);
  }

  /** A fee is the exact floor, cut off at the largest saturated quotient. */
  lemma FeeIsCappedFloor(amount: int, bps: nat)
    requires amount >= 0
    ensures CalculateFee(amount, bps) == Min(amount * bps / BPS, I128_MAX / BPS)
  {
    ProductGrows(0, 0, amount, bps);
  }

  /** Fees of two parts and of their sum, saturated or not. */
  lemma FeeOfSum(a: int, b: int, bps: nat)
    requires a >= 0 && b >= 0
    ensures CalculateFee(a + b, bps) <= CalculateFee(a, bps) + CalculateFee(b, bps) + 1
    ensures a * bps / BPS + b * bps / BPS <= (a + b) * bps / BPS
  {
    FeeIsCappedFloor(a, bps);
    FeeIsCappedFloor(b, bps);
    FeeIsCappedFloor(a + b, bps);
    ProductGrows(0, 0, a, bps);
    ProductGrows(0, 0, b, bps);
    assert (a + b) * bps == a * bps + b * bps;
  }

  lemma {:induction false} FeesBelowExactFee(parts: seq<int>, bps: nat)
    requires forall i :: 0 <= i < |parts| ==> parts[i] >= 0
    ensures FeeSum(parts, bps) <= AmountSum(parts) * bps / BPS
    decreases |parts|
  {
    if parts != [] {
      AmountSumNonNegative(parts[1..]);
      FeesBelowExactFee(parts[1..], bps);
      FeeOfSum(parts[0], AmountSum(parts[1..]), bps);
      FeeIsCappedFloor(parts[0], bps);
    }
  }

  lemma {:induction false} FeeBelowFees(parts: seq<int>, bps: nat)
    requires |parts| > 0
    requires forall i :: 0 <= i < |parts| ==> parts[i] >= 0
    ensures CalculateFee(AmountSum(parts), bps) <= FeeSum(parts, bps) + |parts| - 1
    decreases |parts|
  {
    var rest := parts[1..];
    if rest == [] {
      assert AmountSum(rest) == 0 && FeeSum(rest, bps) == 0;
    } else {
      AmountSumNonNegative(rest);
      FeeBelowFees(rest, bps);
      FeeOfSum(parts[0], AmountSum(rest), bps);
    }
  }

  /** Splitting an order saves at most one unit a part, for all amounts; and it never raises the fee
      exactly as long as the parts' fees stay within the largest saturated quotient, as they do
      whenever the whole order's product fits. */
  lemma FeeOfSplitOrder(parts: seq<int>, bps: nat)
    requires |parts| > 0
    requires forall i :: 0 <= i < |parts| ==> parts[i] >= 0
    ensures CalculateFee(AmountSum(parts), bps) <= FeeSum(parts, bps) + |parts| - 1
    ensures FeeSum(parts, bps) <= CalculateFee(AmountSum(parts), bps) <==> FeeSum(parts, bps) <= I128_MAX / BPS
    ensures AmountSum(parts) * bps <= I128_MAX ==> FeeSum(parts, bps) <= CalculateFee(AmountSum(parts), bps)
  {
    AmountSumNonNegative(parts);
    FeeBelowFees(parts, bps);
    FeesBelowExactFee(parts, bps);
    FeeIsCappedFloor(AmountSum(parts), bps);
  }

  lemma {:induction false} AmountSumNonNegative(parts: seq<int>)
    requires forall i :: 0 <= i < |parts| ==> parts[i] >= 0
    ensures AmountSum(parts) >= 0
    decreases |parts|
  {
    if parts != [] {
      AmountSumNonNegative(parts[1..]);
    }
  }

  /** The fee is the exact floor of amount * bps / 10000 precisely when that floor does not exceed
      the largest saturated quotient. */
  lemma FeeExactRange(amount: int, bps: nat)
    requires amount >= 0
    ensures CalculateFee(amount, bps) == amount * bps / BPS <==> amount * bps / BPS <= I128_MAX / BPS
  {
    FeeIsCappedFloor(amount, bps);
  }

  // ── Splitting a disputed amount ─────────────────────────────────────────────

  /** The two shares of a split: the sender's is rounded down, the driver takes the rest. */
  function SenderShare(amount: int, senderBps: nat): int {
    TruncDiv(Saturate(amount * senderBps), BPS)
  }

  function DriverShare(amount: int, senderBps: nat): int {
    SatSub(amount, SenderShare(amount, senderBps))
  }

  /** Whatever the rate, and whether or not the product saturates, nothing is lost or created. */
  lemma SplitConserves(amount: int, senderBps: nat)
    requires 0 <= amount <= I128_MAX && senderBps <= BPS
    ensures SenderShare(amount, senderBps) >= 0 && DriverShare(amount, senderBps) >= 0
    ensures SenderShare(amount, senderBps) + DriverShare(amount, senderBps) == amount
  {
    FeeWithinAmount(amount, senderBps);
  }

  /** The driver receives the ceiling of their exact share precisely when the sender's exact share
      does not exceed the largest saturated quotient; beyond that the sender is stuck there. */
  lemma SplitRoundsForDriver(amount: int, senderBps: nat)
    requires 0 <= amount <= I128_MAX && senderBps <= BPS
    ensures DriverShare(amount, senderBps) == (amount * (BPS - senderBps) + BPS - 1) / BPS
            <==> amount * senderBps / BPS <= I128_MAX / BPS
    ensures amount * senderBps / BPS > I128_MAX / BPS ==> SenderShare(amount, senderBps) == I128_MAX / BPS
    ensures senderBps == 0 ==> DriverShare(amount, senderBps) == amount
  {
    FeeIsCappedFloor(amount, senderBps);
    SplitConserves(amount, senderBps);
    CeilingIsRest(amount, senderBps);
  }

  lemma CeilingIsRest(amount: int, senderBps: nat)
    requires 0 <= amount && senderBps <= BPS
    ensures (amount * (BPS - senderBps) + BPS - 1) / BPS == amount - amount * senderBps / BPS
  {
    var x := amount * senderBps;
    assert amount * (BPS - senderBps) == amount * BPS - x;
    assert (amount * BPS - x + BPS - 1) / BPS == amount - x / BPS;
  }

  /** A "full refund" split refunds everything exactly up to a threshold; beyond it the sender's
      share is stuck at the saturated quotient and the driver takes the excess. */
  lemma FullSplitExactRange(amount: int)
    requires 0 <= amount <= I128_MAX
    ensures SenderShare(amount, BPS) == amount <==> amount <= I128_MAX / BPS
    ensures amount > I128_MAX / BPS ==> DriverShare(amount, BPS) == amount - I128_MAX / BPS > 0
  {
  }

  // ── Volume tiers ────────────────────────────────────────────────────────────

  /** The last tier of tiers[..n] whose threshold the volume reaches, scanning from the end. */
  function LastReached(tiers: seq<VolumeTier>, n: nat, volume: nat): (last: Option<nat>)
    requires n <= |tiers|
    ensures last.Some? ==> last.value < n
  {
    if n == 0 then None
    else if volume >= tiers[n - 1].threshold then Some(n - 1)
    else LastReached(tiers, n - 1, volume)
  }

  function EffectiveFeeBps(tiers: Option<seq<VolumeTier>>, base: nat, volume: nat): nat {
    match tiers
    case None => base
    case Some(list) =>
      match LastReached(list, |list|, volume)
      case None => base
      case Some(i) => Max(0, base - list[i].discount)
  }

  /** The contract's scan: from the last tier down, stopping at the first one reached. */
  method GetEffectiveFeeBps(tiers: Option<seq<VolumeTier>>, base: nat, volume: nat) returns (bps: nat)
    ensures bps == EffectiveFeeBps(tiers, base, volume)
  {
    if tiers.Some? {
      var list := tiers.value;
      for i := |list| downto 0
        invariant LastReached(list, |list|, volume) == LastReached(list, i, volume)
      {
        if volume >= list[i].threshold {
          return if list[i].discount <= base then base - list[i].discount else 0;
        }
      }
    }
    return base;
  }

  ghost predicate Ascending(tiers: seq<VolumeTier>) {
    forall i, j :: 0 <= i < j < |tiers| ==> tiers[i].threshold < tiers[j].threshold
  }

  ghost predicate DiscountsGrow(tiers: seq<VolumeTier>) {
    forall i, j :: 0 <= i < j < |tiers| ==> tiers[i].discount <= tiers[j].discount
  }

  /** The scan finds the last tier reached, whatever the order of the thresholds. */
  lemma {:induction false} LastReachedIsLast(tiers: seq<VolumeTier>, n: nat, volume: nat)
    requires n <= |tiers|
    ensures match LastReached(tiers, n, volume)
            case None => forall i :: 0 <= i < n ==> volume < tiers[i].threshold
            case Some(k) => k < n && tiers[k].threshold <= volume
                            && forall i :: k < i < n ==> volume < tiers[i].threshold
  {
    if n > 0 && volume < tiers[n - 1].threshold {
      LastReachedIsLast(tiers, n - 1, volume);
    }
  }

  /** The rate is the base rate less the discount of the last tier reached, or nothing if that is
      negative; and the base rate itself if no tier is reached. */
  lemma EffectiveFeeIsLastTier(tiers: Option<seq<VolumeTier>>, base: nat, volume: nat)
    ensures var list, rate := if tiers.Some? then tiers.value else [], EffectiveFeeBps(tiers, base, volume);
            && ((forall t :: t in list ==> volume < t.threshold) ==> rate == base)
            && (forall k :: 0 <= k < |list| && list[k].threshold <= volume
                            && (forall i :: k < i < |list| ==> volume < list[i].threshold)
                            ==> rate == if list[k].discount <= base then base - list[k].discount else 0)
  {
    if tiers.Some? {
      LastReachedIsLast(tiers.value, |tiers.value|, volume);
    }
  }

  /** With ascending thresholds the reached tier has the largest threshold not above the volume. */
  lemma TierIsLargestReached(tiers: seq<VolumeTier>, volume: nat)
    requires Ascending(tiers)
    ensures match LastReached(tiers, |tiers|, volume)
            case None => forall t :: t in tiers ==> volume < t.threshold
            case Some(k) => k < |tiers| && tiers[k].threshold <= volume
                            && forall t :: t in tiers && t.threshold <= volume ==> t.threshold <= tiers[k].threshold
  {
    LastReachedIsLast(tiers, |tiers|, volume);
  }

  /** With ascending thresholds and growing discounts, more volume never costs more; no rate is
      ever above the base rate. */
  lemma EffectiveFeeFallsWithVolume(tiers: seq<VolumeTier>, base: nat, v: nat, w: nat)
    requires Ascending(tiers) && DiscountsGrow(tiers) && v <= w
    ensures EffectiveFeeBps(Some(tiers), base, w) <= EffectiveFeeBps(Some(tiers), base, v) <= base
  {
    LastReachedIsLast(tiers, |tiers|, v);
    LastReachedIsLast(tiers, |tiers|, w);
  }
}
