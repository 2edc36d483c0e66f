/** IntervalBudget: a byte budget refilled at a target rate and capped at what that rate
 *  delivers in a 500 ms window. Overuse (a negative balance) is carried into the next
 *  interval; underuse is not. */
module IntervalBudgets {

  const kWindowMs: nat := 500

  datatype IntervalBudget = IntervalBudget(targetRateKbps: nat, maxBytesInBudget: int, bytesRemaining: int)

  function Min(a: int, b: int): int { if a < b then a else b }
  function Max(a: int, b: int): int { if a < b then b else a }

  /** The cap matches the rate and the balance lies within plus or minus the cap. */
  ghost predicate Valid(b: IntervalBudget)
  {
    && b.maxBytesInBudget == kWindowMs * b.targetRateKbps / 8
    && -b.maxBytesInBudget <= b.bytesRemaining <= b.maxBytesInBudget
  }

  /** Bytes the rate delivers in `deltaMs` milliseconds. */
  function BytesFor(targetRateKbps: nat, deltaMs: nat): nat
  {
    targetRateKbps * deltaMs / 8
  }

  function NewBudget(targetRateKbps: nat): (b: IntervalBudget)
    ensures Valid(b) && b.targetRateKbps == targetRateKbps && b.bytesRemaining == 0
  {
    IntervalBudget(targetRateKbps, kWindowMs * targetRateKbps / 8, 0)
  }

  /** A new rate: the cap follows it and the balance is clamped into the new cap. */
  function SetTargetRateKbps(b: IntervalBudget, targetRateKbps: nat): (r: IntervalBudget)
    ensures Valid(r) && r.targetRateKbps == targetRateKbps
    ensures -r.maxBytesInBudget <= b.bytesRemaining <= r.maxBytesInBudget ==> r.bytesRemaining == b.bytesRemaining
    ensures b.bytesRemaining > r.maxBytesInBudget ==> r.bytesRemaining == r.maxBytesInBudget
    ensures b.bytesRemaining < -r.maxBytesInBudget ==> r.bytesRemaining == -r.maxBytesInBudget
  {
    var maxBytes := kWindowMs * targetRateKbps / 8;
    IntervalBudget(targetRateKbps, maxBytes, Min(Max(-maxBytes, b.bytesRemaining), maxBytes))
  }

  /** Time passes: a debt is paid off by what the rate delivers; a surplus is dropped and the
   *  balance restarts from what the rate delivers. Never above the cap. */
  function IncreaseBudget(b: IntervalBudget, deltaMs: nat): (r: IntervalBudget)
    ensures r.targetRateKbps == b.targetRateKbps && r.maxBytesInBudget == b.maxBytesInBudget
    ensures b.bytesRemaining < 0 ==>
              r.bytesRemaining == Min(b.bytesRemaining + BytesFor(b.targetRateKbps, deltaMs), b.maxBytesInBudget)
    ensures b.bytesRemaining >= 0 ==>
              r.bytesRemaining == Min(BytesFor(b.targetRateKbps, deltaMs), b.maxBytesInBudget)
    ensures Valid(b) ==> Valid(r)
  {
    var bytes := BytesFor(b.targetRateKbps, deltaMs);
    if b.bytesRemaining < 0 then b.(bytesRemaining := Min(b.bytesRemaining + bytes, b.maxBytesInBudget))
    else b.(bytesRemaining := Min(bytes, b.maxBytesInBudget))
  }

  /** Bytes were sent: the balance drops by them, never below minus the cap. */
  function UseBudget(b: IntervalBudget, bytes: nat): (r: IntervalBudget)
    ensures r.targetRateKbps == b.targetRateKbps && r.maxBytesInBudget == b.maxBytesInBudget
    ensures b.bytesRemaining >= -b.maxBytesInBudget ==> r.bytesRemaining <= b.bytesRemaining
    ensures r.bytesRemaining == b.bytesRemaining - bytes || r.bytesRemaining == -b.maxBytesInBudget
    ensures r.bytesRemaining >= -b.maxBytesInBudget
    ensures Valid(b) ==> Valid(r)
  {
    b.(bytesRemaining := Max(b.bytesRemaining - bytes, -b.maxBytesInBudget))
  }

  /** What may still be sent in this interval: the balance when positive, else nothing. */
  function BytesRemaining(b: IntervalBudget): (r: nat)
    ensures r == 0 <==> b.bytesRemaining <= 0
    ensures r > 0 ==> r == b.bytesRemaining
  {
    Max(b.bytesRemaining, 0)
  }

  /** At 2000 kbps a 5 ms interval refills an emptied budget with exactly 1250 bytes. */
  lemma FiveMsAtTwoThousandKbps(b: IntervalBudget)
    requires b.bytesRemaining == 0
    ensures BytesRemaining(IncreaseBudget(SetTargetRateKbps(b, 2000), 5)) == 1250
  {
  }
}
