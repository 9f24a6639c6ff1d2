/** The rank budget of the compressor, over exact reals. */
module RankBudget {
  import opened RealOrder

  function Min(a: int, b: int): int { if a < b then a else b }
  function Max(a: int, b: int): int { if a < b then b else a }

  /** Bits one low rank costs: two 4-bit rows and their scales. */
  function BitsPerLowRank(tokens: nat, hidden: nat): (bits: real)
    ensures bits > 0.0
  {
    4.0 * 16.0 + (tokens + hidden) as real * 4.0
  }

  /** Bits one high rank costs: a 4-bit column with its scale and a 16-bit row. */
  function BitsPerHighRank(tokens: nat, hidden: nat): (bits: real)
    ensures bits > 0.0
  {
    tokens as real * 4.0 + 2.0 * 16.0 + hidden as real * 16.0
  }

  function Cost(low: int, high: int, perLow: real, perHigh: real): real {
    low as real * perLow + high as real * perHigh
  }

  function BitCost(low: int, high: int, tokens: nat, hidden: nat): real {
    Cost(low, high, BitsPerLowRank(tokens, hidden), BitsPerHighRank(tokens, hidden))
  }

  function FloorDiv(x: real, b: real): int
    requires b > 0.0
  {
    (x / b).Floor
  }

  function RankCap(tokens: nat): nat {
    if tokens >= 8192 then 256 else if tokens >= 4096 then 384 else 512
  }

  function GroupTokens(seqLen: nat, groups: int): nat {
    seqLen / Max(groups, 1)
  }

  function GroupBytes(ratio: real, layers: int, seqLen: nat, hidden: nat, groups: int, elementSize: nat): real {
    layers as real * seqLen as real * hidden as real * elementSize as real * ratio / Max(groups, 1) as real
  }

  /** The rank that `bits` pay for, capped. */
  function RankFor(bits: real, tokens: nat, hidden: nat): int {
    var allRank := FloorDiv(bits, BitsPerLowRank(tokens, hidden));
    Max(0, Min(Min(allRank, RankCap(tokens)), Min(1024, tokens)))
  }

  function CalculateMultiRank(ratio: real, layers: int, seqLen: nat, hidden: nat, groups: int, elementSize: nat): int {
    RankFor(GroupBytes(ratio, layers, seqLen, hidden, groups, elementSize) * 8.0, GroupTokens(seqLen, groups), hidden)
  }

  /** Bits the requested high rank costs. */
  function HighBits(high: int, tokens: nat, hidden: nat): real {
    high as real * tokens as real * 4.0 + high as real * 2.0 * 16.0 + high as real * hidden as real * 16.0
  }

  /** Fill what `spent` leaves of the budget with low ranks, or fall back to high ranks only. */
  function Allocated(total: real, spent: real, perLow: real, perHigh: real, high: int): (int, int)
    requires perLow > 0.0 && perHigh > 0.0
  {
    var low := FloorDiv(total - spent, perLow);
    if low < 0 then (0, FloorDiv(total, perHigh)) else (low, high)
  }

  function AllocateLowRankMulti(budget: real, hidden: nat, tokens: nat, high: int): (int, int) {
    Allocated(budget * 8.0, HighBits(high, tokens, hidden),
              BitsPerLowRank(tokens, hidden), BitsPerHighRank(tokens, hidden), high)
  }

  // ---- Floors ----------------------------------------------------------------------------------

  lemma NextMultiple(q: int, b: real)
    ensures (q + 1) as real * b == q as real * b + b
  {
    assert (q + 1) as real == q as real + 1.0;
  }

  lemma MultipleBelow(x: real, b: real, f: real, y: real)
    requires b > 0.0 && f <= y < f + 1.0 && x == y * b
    ensures f * b + b - x > 0.0 && x - f * b >= 0.0
  {
    calc {
      f * b + b - x;
      f * b + b - y * b;
      (f + 1.0 - y) * b;
    > { assert f + 1.0 - y > 0.0; }
      0.0;
    }
    calc {
      x - f * b;
      y * b - f * b;
      (y - f) * b;
    >=
      0.0;
    }
  }

  /** The floor of a quotient is the largest multiple that fits. */
  lemma FloorQuotient(x: real, b: real)
    requires b > 0.0
    ensures var q := FloorDiv(x, b);
            q as real * b <= x < (q + 1) as real * b
  {
    MultipleBelow(x, b, FloorDiv(x, b) as real, x / b);
    NextMultiple(FloorDiv(x, b), b);
  }

  lemma FloorSign(x: real, b: real)
    requires b > 0.0
    ensures FloorDiv(x, b) >= 0 <==> x >= 0.0
  {
    DivMul(x, b);
    MulOrder(0.0, x / b, b);
  }

  // ---- The candidate rank ----------------------------------------------------------------------

  ghost predicate GoodRank(r: int, bits: real, tokens: nat, hidden: nat) {
    && 0 <= r <= tokens && r <= RankCap(tokens) <= 512
    && (r > 0 ==> BitCost(r, 0, tokens, hidden) <= bits)
    && (r < tokens && r < RankCap(tokens) ==> bits < BitCost(r + 1, 0, tokens, hidden))
  }

  lemma RankForBounds(bits: real, tokens: nat, hidden: nat)
    ensures GoodRank(RankFor(bits, tokens, hidden), bits, tokens, hidden)
  {
    CappedFloor(bits, BitsPerLowRank(tokens, hidden), RankCap(tokens), tokens);
  }

  /** The candidate is between zero and the tokens of a group, never above its cap; a positive one fits
      the group's bytes, and it is the largest such unless the tokens or the cap stop it. */
  lemma MultiRankBounds(ratio: real, layers: int, seqLen: nat, hidden: nat, groups: int, elementSize: nat)
    ensures GoodRank(CalculateMultiRank(ratio, layers, seqLen, hidden, groups, elementSize),
                     GroupBytes(ratio, layers, seqLen, hidden, groups, elementSize) * 8.0,
                     GroupTokens(seqLen, groups), hidden)
  {
    RankForBounds(GroupBytes(ratio, layers, seqLen, hidden, groups, elementSize) * 8.0, GroupTokens(seqLen, groups),
                  hidden);
  }

  lemma CappedFloor(bits: real, per: real, cap: nat, tokens: nat)
    requires per > 0.0 && cap <= 512
    ensures var r := Max(0, Min(Min(FloorDiv(bits, per), cap), Min(1024, tokens)));
            && 0 <= r <= tokens && r <= cap
            && (r > 0 ==> r as real * per <= bits)
            && (r < tokens && r < cap ==> bits < (r + 1) as real * per)
  {
    FloorQuotient(bits, per);
    var all := FloorDiv(bits, per);
    var r := Max(0, Min(Min(all, cap), Min(1024, tokens)));
    MulOrder(r as real, all as real, per);
    MulOrder((all + 1) as real, (r + 1) as real, per);
  }

  // ---- Low and high rank -----------------------------------------------------------------------

  lemma HighBitsPerRank(high: int, tokens: nat, hidden: nat)
    ensures HighBits(high, tokens, hidden) == high as real * BitsPerHighRank(tokens, hidden)
  {
    Expanded(high as real, tokens as real, hidden as real);
  }

  lemma Expanded(r: real, t: real, h: real)
    ensures r * (t * 4.0 + 2.0 * 16.0 + h * 16.0) == r * t * 4.0 + r * 2.0 * 16.0 + r * h * 16.0
  {
  }

  lemma AllocatedFits(total: real, spent: real, perLow: real, perHigh: real, high: nat)
    requires total >= 0.0 && perLow > 0.0 && perHigh > 0.0 && spent == high as real * perHigh
    ensures var (low, kept) := Allocated(total, spent, perLow, perHigh, high);
            && 0 <= low && 0 <= kept <= high
            && Cost(low, kept, perLow, perHigh) <= total
            && (kept < high <==> Cost(0, high, perLow, perHigh) > total)
            && (kept < high ==> low == 0 && Cost(0, kept + 1, perLow, perHigh) > total)
            && (kept == high ==> Cost(low + 1, kept, perLow, perHigh) > total)
  {
    FloorQuotient(total - spent, perLow);
    FloorSign(total - spent, perLow);
    FloorQuotient(total, perHigh);
    FloorSign(total, perHigh);
    MulOrder(FloorDiv(total, perHigh) as real, high as real, perHigh);
  }

  /** The ranks are non-negative, cost at most the budget, and the fallback, taken exactly when the
      requested high rank alone is over budget, strictly lowers it to the largest that fits. */
  lemma AllocationFits(budget: real, hidden: nat, tokens: nat, high: nat)
    requires budget >= 0.0
    ensures var (low, kept) := AllocateLowRankMulti(budget, hidden, tokens, high);
            && 0 <= low && 0 <= kept <= high
            && BitCost(low, kept, tokens, hidden) <= budget * 8.0
            && (kept < high <==> BitCost(0, high, tokens, hidden) > budget * 8.0)
            && (kept < high ==> low == 0 && BitCost(0, kept + 1, tokens, hidden) > budget * 8.0)
            && (kept == high ==> BitCost(low + 1, kept, tokens, hidden) > budget * 8.0)
  {
    HighBitsPerRank(high, tokens, hidden);
    AllocatedFits(budget * 8.0, HighBits(high, tokens, hidden), BitsPerLowRank(tokens, hidden),
                  BitsPerHighRank(tokens, hidden), high);
  }

  /** The same with the bits written out: four per entry of both factors and 64 for the scales of a low
      rank; four per token, 32 for the scale and sixteen per hidden entry of a high rank. */
  lemma AllocationBits(budget: real, hidden: nat, tokens: nat, high: nat)
    requires budget >= 0.0
    ensures var (low, kept) := AllocateLowRankMulti(budget, hidden, tokens, high);
            var perLow, perHigh := (64 + 4 * (tokens + hidden)) as real, (4 * tokens + 32 + 16 * hidden) as real;
            && 0 <= low && 0 <= kept <= high
            && low as real * perLow + kept as real * perHigh <= 8.0 * budget
            && (kept < high <==> high as real * perHigh > 8.0 * budget)
            && (kept < high ==> low == 0 && (kept + 1) as real * perHigh > 8.0 * budget)
            && (kept == high ==> (low + 1) as real * perLow + kept as real * perHigh > 8.0 * budget)
  {
    AllocationFits(budget, hidden, tokens, high);
    BitsWritten(tokens, hidden);
  }

  lemma BitsWritten(tokens: nat, hidden: nat)
    ensures BitsPerLowRank(tokens, hidden) == (64 + 4 * (tokens + hidden)) as real
    ensures BitsPerHighRank(tokens, hidden) == (4 * tokens + 32 + 16 * hidden) as real
  {
  }

  /** A capped rank with its cost and its cap written out. */
  ghost predicate LargestAffordable(rank: int, bits: real, tokens: nat, hidden: nat) {
    var per := (64 + 4 * (tokens + hidden)) as real;
    var cap := if tokens >= 8192 then 256 else if tokens >= 4096 then 384 else 512;
    && 0 <= rank <= tokens && rank <= cap
    && (rank > 0 ==> rank as real * per <= bits)
    && (rank < tokens && rank < cap ==> bits < (rank + 1) as real * per)
  }

  lemma RankWritten(rank: int, bits: real, tokens: nat, hidden: nat)
    requires GoodRank(rank, bits, tokens, hidden)
    ensures LargestAffordable(rank, bits, tokens, hidden)
  {
    BitsWritten(tokens, hidden);
  }

  /** The candidate rank with bytes, tokens and caps written out. */
  lemma MultiRankBits(ratio: real, layers: int, seqLen: nat, hidden: nat, groups: int, elementSize: nat, g: int,
                      bytes: real)
    requires g == if groups < 1 then 1 else groups
    requires bytes == layers as real * seqLen as real * hidden as real * elementSize as real * ratio / g as real
    ensures LargestAffordable(CalculateMultiRank(ratio, layers, seqLen, hidden, groups, elementSize), bytes * 8.0,
                              seqLen / g, hidden)
  {
    MultiRankBounds(ratio, layers, seqLen, hidden, groups, elementSize);
    var rank := CalculateMultiRank(ratio, layers, seqLen, hidden, groups, elementSize);
    RankWritten(rank, bytes * 8.0, seqLen / g, hidden);
  }

  /** What is left of the budget after the largest high rank that fits. */
  function Remainder(budget: real, hidden: nat, tokens: nat): real {
    var per := BitsPerHighRank(tokens, hidden);
    budget * 8.0 - FloorDiv(budget * 8.0, per) as real * per
  }

  /** The low rank is the largest that fits beside the high rank returned if and only if the requested
      high rank fits, or the fallback leaves less than one low rank over. */
  lemma LowRankMaximal(budget: real, hidden: nat, tokens: nat, high: nat)
    requires budget >= 0.0
    ensures var (low, kept) := AllocateLowRankMulti(budget, hidden, tokens, high);
            BitCost(low + 1, kept, tokens, hidden) > budget * 8.0
            <==> BitCost(0, high, tokens, hidden) <= budget * 8.0
                 || Remainder(budget, hidden, tokens) < BitsPerLowRank(tokens, hidden)
  {
    AllocationFits(budget, hidden, tokens, high);
  }

  /** The fallback can leave room for a low rank it does not hand out. */
  lemma FallbackLeavesRoom()
    ensures AllocateLowRankMulti(250.0, 128, 64, 1) == (0, 0)
    ensures BitCost(1, 0, 64, 128) <= 250.0 * 8.0
  {
    AllocationFits(250.0, 128, 64, 1);
    assert BitCost(0, 1, 64, 128) > 2000.0;
  }
}
