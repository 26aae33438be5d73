/** The arithmetic of the BEAR claim canister (bear-claim-canister/src/lib.rs):
    digit counting, the ICP to USD conversion, the two-tier contributor score,
    the weighted total, the eight-slot vesting ladder, the saturating pool
    addition and the last-write-wins ingestion of rows. */
module BearCalc {
  import opened IcTypes
  import opened BearTypes

  // ---------------------------------------------------------------------
  // Holder points: decimal digit count

  function Pow10(n: nat): (r: nat)
    ensures r >= 1
  {
    if n == 0 then 1 else 10 * Pow10(n - 1)
  }

  /** The number of decimal digits of `x`, and 0 for 0. */
  function DigitCount(x: nat): (r: nat)
    ensures r == 0 <==> x == 0
    ensures r <= x
  {
    if x == 0 then 0 else 1 + DigitCount(x / 10)
  }

  lemma {:induction false} Pow10Monotone(a: nat, b: nat)
    requires a <= b
    ensures Pow10(a) <= Pow10(b)
  {
    if a < b {
      Pow10Monotone(a, b - 1);
    }
  }

  /** A positive `x` has `d` digits exactly when 10^(d-1) <= x < 10^d. */
  lemma {:induction false} DigitCountBounds(x: nat)
    ensures x < Pow10(DigitCount(x))
    ensures x > 0 ==> DigitCount(x) >= 1 && Pow10(DigitCount(x) - 1) <= x
  {
    if x > 0 {
      DigitCountBounds(x / 10);
    }
  }

  /** The bounds determine the digit count: no other `d` satisfies them. */
  lemma {:induction false} DigitCountUnique(x: nat, d: nat)
    requires d >= 1 && Pow10(d - 1) <= x < Pow10(d)
    ensures DigitCount(x) == d
  {
    DigitCountBounds(x);
    var e := DigitCount(x);
    if e < d {
      Pow10Monotone(e, d - 1);
      assert false;
    } else if e > d {
      Pow10Monotone(d, e - 1);
      assert false;
    }
  }

  lemma {:induction false} DigitCountAtMost(x: nat, k: nat)
    requires x < Pow10(k)
    ensures DigitCount(x) <= k
  {
    if x > 0 {
      assert k > 0;
      DigitCountAtMost(x / 10, k - 1);
    }
  }

  /** A u128 has at most 39 decimal digits, so the digit counter cannot
      overflow its u64. */
  lemma DigitCountOfTokens(x: Tokens)
    ensures DigitCount(x) <= 39
  {
    assert Pow10(39) == 1_000_000_000_000_000_000_000_000_000_000_000_000_000 by {
      Pow10Value();
    }
    DigitCountAtMost(x, 39);
  }

  lemma Pow10Value()
    ensures Pow10(39) == 1_000_000_000_000_000_000_000_000_000_000_000_000_000
  {
    assert Pow10(10) == 10_000_000_000;
    assert Pow10(20) == 100_000_000_000_000_000_000;
    assert Pow10(30) == 1_000_000_000_000_000_000_000_000_000_000;
  }

  /** Adding a digit at the end adds exactly one point. */
  lemma DigitCountTimesTen(x: nat)
    requires x > 0
    ensures DigitCount(10 * x) == DigitCount(x) + 1
  {
    assert (10 * x) / 10 == x;
  }

  lemma {:induction false} DigitCountMonotone(x: nat, y: nat)
    requires x <= y
    ensures DigitCount(x) <= DigitCount(y)
  {
    if x > 0 {
      DigitCountMonotone(x / 10, y / 10);
    }
  }

  /** Doubling a balance adds at most one holder point. */
  lemma DoublingAddsAtMostOne(x: nat)
    ensures DigitCount(2 * x) <= DigitCount(x) + 1
  {
    if x > 0 {
      DigitCountMonotone(2 * x, 10 * x);
      DigitCountTimesTen(x);
    }
  }

  lemma DigitCountExamples()
    ensures DigitCount(0) == 0 && DigitCount(9) == 1 && DigitCount(10) == 2
    ensures DigitCount(999) == 3 && DigitCount(1000) == 4
  {
    assert DigitCount(99) == 2;
  }

  /** `log10_like`: counts digits by repeated division. */
  method Log10Like(x: Tokens) returns (d: U64)
    ensures d == DigitCount(x)
    ensures x > 0 ==> Pow10(d - 1) <= x < Pow10(d)
  {
    DigitCountOfTokens(x);
    DigitCountBounds(x);
    var n: Tokens := x;
    d := 0;
    if n == 0 {
      return 0;
    }
    while n > 0
      invariant d + DigitCount(n) == DigitCount(x)
    {
      n := n / 10;
      d := d + 1;
    }
  }

  // ---------------------------------------------------------------------
  // Contributor points

  /** Fixed-point divisor: e8s carry 8 decimals. */
  const E8S_PER_ICP: nat := 100_000_000
  const MICROUSD_PER_USD: nat := 1_000_000
  /** Up to this many USD a contribution scores one point per USD; beyond
      it, two. */
  const TIER_THRESHOLD_USD: nat := 100_000

  lemma ProductFitsU128(a: U64, b: U64)
    ensures a * b < U128_BOUND
  {
    var m := U64_BOUND - 1;
    assert a * b <= a * m by { MulMonotone(a, b, m); }
    assert a * m <= m * m by { MulMonotone(m, a, m); }
  }

  lemma MulMonotone(a: nat, b: nat, c: nat)
    requires b <= c
    ensures a * b <= a * c
  {
  }

  /** `icp_usd`: e8s times micro-USD per ICP, divided by 1e8, in u128. The
      result is the floor of the exact product over 1e8, and the product of
      two u64 values never overflows u128. */
  function IcpUsd(icpE8s: E8s, rateMicrousdPerIcp: Microusd): (r: U128)
    ensures r * E8S_PER_ICP <= icpE8s * rateMicrousdPerIcp < (r + 1) * E8S_PER_ICP
  {
    ProductFitsU128(icpE8s, rateMicrousdPerIcp);
    icpE8s * rateMicrousdPerIcp / E8S_PER_ICP
  }

  /** Whole USD of an amount of micro-USD (the division before `as u64`). */
  function Usd(microUsd: nat): (r: nat)
    ensures r * MICROUSD_PER_USD <= microUsd < (r + 1) * MICROUSD_PER_USD
  {
    microUsd / MICROUSD_PER_USD
  }

  /** `base + 2 * excess` with `base = usd.min(100_000)` and
      `excess = usd.saturating_sub(100_000)`. */
  function ContributorPoints(usd: nat): (r: nat)
    ensures usd <= r <= 2 * usd
    ensures r == usd <==> usd <= TIER_THRESHOLD_USD
  {
    var base := if usd < TIER_THRESHOLD_USD then usd else TIER_THRESHOLD_USD;
    var excess := if usd > TIER_THRESHOLD_USD then usd - TIER_THRESHOLD_USD else 0;
    base + 2 * excess
  }

  /** One point per USD up to the threshold, two per USD beyond it. */
  lemma ContributorPointsTiers(usd: nat)
    ensures usd <= TIER_THRESHOLD_USD ==> ContributorPoints(usd) == usd
    ensures usd > TIER_THRESHOLD_USD ==>
      ContributorPoints(usd) == TIER_THRESHOLD_USD + 2 * (usd - TIER_THRESHOLD_USD)
  {
  }

  /** A larger contribution never scores fewer points; a strictly larger one
      scores strictly more. */
  lemma ContributorPointsMonotone(u: nat, v: nat)
    requires u <= v
    ensures ContributorPoints(u) <= ContributorPoints(v)
    ensures u < v ==> ContributorPoints(u) < ContributorPoints(v)
  {
  }

  lemma ContributorPointsExamples()
    ensures ContributorPoints(50_000) == 50_000
    ensures ContributorPoints(150_000) == 200_000
  {
  }

  // ---------------------------------------------------------------------
  // Total points

  /** The intermediate values of `compute_points` fit their u64s: the cast
      `as u64` of the USD amount does not truncate, and neither
      `base + 2 * excess` nor the weighted sum overflows. */
  predicate PointsFit(holder: Tokens, icpE8s: E8s, rate: Microusd, w: Weights) {
    var usd := Usd(IcpUsd(icpE8s, rate));
    && usd < U64_BOUND
    && ContributorPoints(usd) < U64_BOUND
    && w.wHolder * DigitCount(holder) + w.wContrib * ContributorPoints(usd) < U64_BOUND
  }

  /** The points of an account holding `holder` tokens that contributed
      `icpE8s`, at the given exchange rate and weights. */
  function Points(holder: Tokens, icpE8s: E8s, rate: Microusd, w: Weights): (r: PointsBreakdown)
    requires PointsFit(holder, icpE8s, rate, w)
    ensures r.holderPoints <= 39
    ensures r.holderPoints == 0 <==> holder == 0
    ensures Usd(IcpUsd(icpE8s, rate)) <= r.contributorPoints
    ensures w.wHolder * r.holderPoints <= r.totalPoints
    ensures w.wContrib * r.contributorPoints <= r.totalPoints
  {
    DigitCountOfTokens(holder);
    var holderPts: U64 := DigitCount(holder);
    var contribPts: U64 := ContributorPoints(Usd(IcpUsd(icpE8s, rate)));
    var total := w.wHolder * holderPts + w.wContrib * contribPts;
    assert 0 <= w.wHolder * holderPts && 0 <= w.wContrib * contribPts;
    PointsBreakdown(holderPts, contribPts, total)
  }

  /** An account with no holdings and no contribution scores nothing, at any
      rate and any weights. */
  lemma PointsOfNothing(rate: Microusd, w: Weights)
    ensures PointsFit(0, 0, rate, w)
    ensures Points(0, 0, rate, w) == PointsBreakdown(0, 0, 0)
  {
    assert IcpUsd(0, rate) == 0;
  }

  /** 5,000 ICP at 10 USD per ICP is 50,000 USD and scores 50,000 points;
      15,000 ICP at that rate is 150,000 USD and scores 200,000. A holder of
      999 tokens scores 3. */
  lemma PointsScenario()
    ensures PointsFit(999, 5_000 * E8S_PER_ICP, 10 * MICROUSD_PER_USD, Weights(1, 1))
    ensures Points(999, 5_000 * E8S_PER_ICP, 10 * MICROUSD_PER_USD, Weights(1, 1)) == PointsBreakdown(3, 50_000, 50_003)
    ensures PointsFit(0, 15_000 * E8S_PER_ICP, 10 * MICROUSD_PER_USD, Weights(1, 1))
    ensures Points(0, 15_000 * E8S_PER_ICP, 10 * MICROUSD_PER_USD, Weights(1, 1)) == PointsBreakdown(0, 200_000, 200_000)
  {
    DigitCountExamples();
    assert IcpUsd(5_000 * E8S_PER_ICP, 10 * MICROUSD_PER_USD) == 50_000 * MICROUSD_PER_USD;
    assert IcpUsd(15_000 * E8S_PER_ICP, 10 * MICROUSD_PER_USD) == 150_000 * MICROUSD_PER_USD;
  }

  /** With fixed weights, more holdings or a larger contribution never lower
      the total. */
  lemma PointsMonotone(h1: Tokens, h2: Tokens, c1: E8s, c2: E8s, rate: Microusd, w: Weights)
    requires h1 <= h2 && c1 <= c2
    requires PointsFit(h1, c1, rate, w) && PointsFit(h2, c2, rate, w)
    ensures Points(h1, c1, rate, w).totalPoints <= Points(h2, c2, rate, w).totalPoints
  {
    DigitCountMonotone(h1, h2);
    assert IcpUsd(c1, rate) <= IcpUsd(c2, rate) by {
      MulMonotone(rate, c1, c2);
    }
    var u1, u2 := Usd(IcpUsd(c1, rate)), Usd(IcpUsd(c2, rate));
    ContributorPointsMonotone(u1, u2);
    MulMonotone(w.wHolder, DigitCount(h1), DigitCount(h2));
    MulMonotone(w.wContrib, ContributorPoints(u1), ContributorPoints(u2));
  }

  // ---------------------------------------------------------------------
  // The vesting ladder

  const LADDER_SLOTS: nat := 8
  /** Six 30-day months, in seconds. */
  const HALF_YEAR_SECONDS: nat := 6 * 30 * 24 * 60 * 60

  /** `default_ladder`: eight pending slots; slot `i` waits `i + 1` half-years
      and holds an eighth of the total, rounded down. */
  function DefaultLadder(total: Tokens): (r: seq<LadderSlot>)
    ensures |r| == LADDER_SLOTS
    ensures forall i :: 0 <= i < |r| ==>
      && r[i].slotIndex == i
      && r[i].status == Pending
      && r[i].neuronId == None
      && LADDER_SLOTS * r[i].amount <= total < LADDER_SLOTS * (r[i].amount + 1)
  {
    seq(LADDER_SLOTS, i requires 0 <= i < LADDER_SLOTS =>
      LadderSlot(i, HALF_YEAR_SECONDS * (i + 1), total / LADDER_SLOTS, Pending, None))
  }

  function SumAmounts(slots: seq<LadderSlot>): nat {
    if slots == [] then 0 else SumAmounts(slots[..|slots| - 1]) + slots[|slots| - 1].amount
  }

  lemma DefaultLadderShape(total: Tokens)
    ensures |DefaultLadder(total)| == LADDER_SLOTS
    ensures forall i :: 0 <= i < LADDER_SLOTS ==>
      var slot := DefaultLadder(total)[i];
      && slot.slotIndex == i
      && slot.amount == total / LADDER_SLOTS
      && slot.dissolveDelaySeconds == 15_552_000 * (i + 1)
      && slot.status == Pending
      && slot.neuronId == None
  {
  }

  /** Later slots wait strictly longer. */
  lemma DefaultLadderDelaysIncrease(total: Tokens, i: nat, j: nat)
    requires i < j < LADDER_SLOTS
    ensures DefaultLadder(total)[i].dissolveDelaySeconds < DefaultLadder(total)[j].dissolveDelaySeconds
  {
  }

  lemma {:induction false} SumAmountsUniform(slots: seq<LadderSlot>, a: nat)
    requires forall i :: 0 <= i < |slots| ==> slots[i].amount == a
    ensures SumAmounts(slots) == |slots| * a
  {
    if slots != [] {
      SumAmountsUniform(slots[..|slots| - 1], a);
    }
  }

  /** The slots hand out the total less its remainder modulo 8: up to seven
      base units are lost, and never more than the total is handed out. */
  lemma DefaultLadderSum(total: Tokens)
    ensures SumAmounts(DefaultLadder(total)) == total - total % LADDER_SLOTS
    ensures SumAmounts(DefaultLadder(total)) <= total
    ensures total - SumAmounts(DefaultLadder(total)) < LADDER_SLOTS
  {
    SumAmountsUniform(DefaultLadder(total), total / LADDER_SLOTS);
  }

  // ---------------------------------------------------------------------
  // Pool funding

  /** `u128::saturating_add`. */
  function SaturatingAdd(a: Tokens, b: Tokens): (r: Tokens)
    ensures a <= r && b <= r
    ensures r == a + b || (r == U128_MAX && a + b > U128_MAX)
  {
    if a + b <= U128_MAX then a + b else U128_MAX
  }

  // ---------------------------------------------------------------------
  // Ingestion

  /** The map after inserting `rows` in order, each insert overwriting. */
  function Ingest<V>(m: map<Principal, V>, rows: seq<(Principal, V)>): (r: map<Principal, V>)
    ensures r.Keys == m.Keys + Owners(rows)
  {
    if rows == [] then m
    else
      var last := rows[|rows| - 1];
      Ingest(m, rows[..|rows| - 1])[last.0 := last.1]
  }

  /** The index of the last row for `k`, or -1 when there is none. */
  function LastIndexOf<V>(rows: seq<(Principal, V)>, k: Principal): (i: int)
    ensures -1 <= i < |rows|
    ensures 0 <= i ==> rows[i].0 == k
    ensures forall j :: i < j < |rows| ==> rows[j].0 != k
  {
    if rows == [] then -1
    else if rows[|rows| - 1].0 == k then |rows| - 1
    else LastIndexOf(rows[..|rows| - 1], k)
  }

  /** Last write wins: a key that occurs in the batch maps to the value of
      its last row; any other key keeps its old entry, or stays absent. */
  lemma {:induction false} IngestLastWriteWins<V>(m: map<Principal, V>, rows: seq<(Principal, V)>, k: Principal)
    ensures var i := LastIndexOf(rows, k);
      if 0 <= i then k in Ingest(m, rows) && Ingest(m, rows)[k] == rows[i].1
      else (k in Ingest(m, rows) <==> k in m) && (k in m ==> Ingest(m, rows)[k] == m[k])
  {
    if rows != [] {
      IngestLastWriteWins(m, rows[..|rows| - 1], k);
    }
  }

  /** The set of owners named in a batch. */
  function Owners<V>(rows: seq<(Principal, V)>): set<Principal> {
    if rows == [] then {} else Owners(rows[..|rows| - 1]) + {rows[|rows| - 1].0}
  }

  /** The snapshot rows as (owner, tokens) pairs. */
  function SnapshotEntries(rows: seq<SnapshotRow>): seq<(Principal, Tokens)> {
    seq(|rows|, i requires 0 <= i < |rows| => (rows[i].owner, rows[i].bearTokens))
  }

  /** The contribution rows as (owner, e8s) pairs. */
  function ContribEntries(rows: seq<ContribRow>): seq<(Principal, E8s)> {
    seq(|rows|, i requires 0 <= i < |rows| => (rows[i].owner, rows[i].icpE8s))
  }
}
