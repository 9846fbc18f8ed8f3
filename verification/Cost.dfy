/** USD estimates from token counts (cost_estimation.py) and the sum stored on the judge path. */
module Cost {
  import opened Basics

  /** Token usage reported by a provider for one call; either count may be missing. */
  datatype Tokens = Tokens(inp: Option<nat>, out: Option<nat>)

  /** USD per million tokens for the active provider; a rate <= 0 switches that side off. */
  datatype Rates = Rates(perMillionIn: real, perMillionOut: real) {
    predicate PricingOff() {
      perMillionIn <= 0.0 && perMillionOut <= 0.0
    }
  }

  /** Stored amounts are whole numbers of 0.000001 USD (`Numeric(14, 6)`). */
  type Micros = int

  function Usd(m: Micros): real {
    m as real / 1000000.0
  }

  /** Decimal's default rounding: to the nearest integer, ties to even. */
  function RoundHalfEven(x: real): (n: int)
    ensures -0.5 <= n as real - x <= 0.5
    ensures n as real - x == 0.5 || x - n as real == 0.5 ==> n % 2 == 0
  {
    var f := x.Floor;
    var d := x - f as real;
    if d < 0.5 then f else if d > 0.5 then f + 1 else if f % 2 == 0 then f else f + 1
  }

  function Quantize(usd: real): (m: Micros)
    ensures -0.0000005 <= Usd(m) - usd <= 0.0000005
  {
    RoundHalfEven(usd * 1000000.0)
  }

  /** One side of the bill before rounding. */
  function SideUsd(rate: real, count: Option<nat>): real {
    if rate > 0.0 then rate * count.GetOr(0) as real / 1000000.0 else 0.0
  }

  function EstimateUsd(rates: Rates, used: Tokens): Option<Micros> {
    if rates.PricingOff() then None
    else if used.inp.None? && used.out.None? then None
    else Some(Quantize(SideUsd(rates.perMillionIn, used.inp) + SideUsd(rates.perMillionOut, used.out)))
  }

  /** `_sum_tokens`: unknown only when both parts are unknown. */
  function SumCounts(a: Option<nat>, b: Option<nat>): Option<nat> {
    if a.None? && b.None? then None else Some(a.GetOr(0) + b.GetOr(0))
  }

  /** Judge usage: the first call, plus the second one when the first reply did not parse. */
  function JudgeUsage(first: Tokens, retry: Option<Tokens>): Tokens {
    match retry
    case None => first
    case Some(second) => Tokens(SumCounts(first.inp, second.inp), SumCounts(first.out, second.out))
  }

  /** `cost_usd` written by the judge branch: each component is rounded on its own, then added. */
  function JudgePathCost(rates: Rates, generation: Tokens, judge: Tokens): Option<Micros> {
    var g := EstimateUsd(rates, generation);
    var j := EstimateUsd(rates, judge);
    if g.None? && j.None? then None else Some(g.GetOr(0) + j.GetOr(0))
  }

  /** A rate that is not positive charges nothing. */
  function Charged(rate: real): real {
    if rate > 0.0 then rate else 0.0
  }

  /** All tokens of the calls; an unknown count is taken as none. */
  function TotalIn(calls: seq<Tokens>): nat {
    if calls == [] then 0 else calls[0].inp.GetOr(0) + TotalIn(calls[1..])
  }

  function TotalOut(calls: seq<Tokens>): nat {
    if calls == [] then 0 else calls[0].out.GetOr(0) + TotalOut(calls[1..])
  }

  /** Dollars for these tokens at prices per million. */
  function Price(p: real, q: real, inTokens: nat, outTokens: nat): real {
    (p * inTokens as real + q * outTokens as real) / 1000000.0
  }

  /** The exact bill for a list of provider calls: rates in USD for a million tokens, times all tokens of
      the calls, with no rounding anywhere. */
  function ExactBill(rates: Rates, calls: seq<Tokens>): real {
    Price(Charged(rates.perMillionIn), Charged(rates.perMillionOut), TotalIn(calls), TotalOut(calls))
  }

  predicate AnyCountKnown(calls: seq<Tokens>) {
    exists i :: 0 <= i < |calls| && (calls[i].inp.Some? || calls[i].out.Some?)
  }

  /** The provider calls behind one judged run, in order. */
  function CallsOf(generation: Tokens, first: Tokens, retry: Option<Tokens>): seq<Tokens> {
    [generation, first] + (match retry case None => [] case Some(second) => [second])
  }

  lemma {:induction false} TotalsConcat(a: seq<Tokens>, b: seq<Tokens>)
    ensures TotalIn(a + b) == TotalIn(a) + TotalIn(b)
    ensures TotalOut(a + b) == TotalOut(a) + TotalOut(b)
  {
    if a == [] {
      assert a + b == b;
    } else {
      assert (a + b)[1..] == a[1..] + b;
      TotalsConcat(a[1..], b);
    }
  }

  lemma TotalsOfOne(t: Tokens)
    ensures TotalIn([t]) == t.inp.GetOr(0) && TotalOut([t]) == t.out.GetOr(0)
  {
    assert [t][1..] == [];
  }

  lemma Distribute(rate: real, a: real, b: real)
    ensures rate * (a + b) == rate * a + rate * b
  {
  }

  lemma Shares(a: real, b: real, c: real, d: real)
    ensures (a + b + (c + d)) / 1000000.0 == (a + c) / 1000000.0 + (b + d) / 1000000.0
  {
  }

  lemma PricesAdd(p: real, q: real, ia: nat, ib: nat, oa: nat, ob: nat)
    ensures Price(p, q, ia + ib, oa + ob) == Price(p, q, ia, oa) + Price(p, q, ib, ob)
  {
    Distribute(p, ia as real, ib as real);
    Distribute(q, oa as real, ob as real);
    Shares(p * ia as real, p * ib as real, q * oa as real, q * ob as real);
  }

  /** Pricing is linear: the bill for more calls is the sum of the bills. */
  lemma BillConcat(rates: Rates, a: seq<Tokens>, b: seq<Tokens>)
    ensures ExactBill(rates, a + b) == ExactBill(rates, a) + ExactBill(rates, b)
  {
    TotalsConcat(a, b);
    PricesAdd(Charged(rates.perMillionIn), Charged(rates.perMillionOut),
              TotalIn(a), TotalIn(b), TotalOut(a), TotalOut(b));
  }

  /** Summing the tokens of a retried judge call before pricing does not change the bill. */
  lemma UsageBill(rates: Rates, generation: Tokens, first: Tokens, retry: Option<Tokens>)
    ensures ExactBill(rates, CallsOf(generation, first, retry)) ==
            ExactBill(rates, [generation]) + ExactBill(rates, [JudgeUsage(first, retry)])
  {
    var judged := [first] + (match retry case None => [] case Some(second) => [second]);
    assert CallsOf(generation, first, retry) == [generation] + judged;
    BillConcat(rates, [generation], judged);
    match retry
    case None =>
      assert judged == [first];
    case Some(second) =>
      TotalsConcat([first], [second]);
      TotalsOfOne(first);
      TotalsOfOne(second);
      TotalsOfOne(JudgeUsage(first, retry));
  }

  lemma SideIsCharged(rate: real, count: Option<nat>)
    ensures SideUsd(rate, count) * 1000000.0 == Charged(rate) * count.GetOr(0) as real
  {
    var whole := rate * count.GetOr(0) as real;
    assert whole / 1000000.0 * 1000000.0 == whole;
  }

  lemma EstimateIsExact(rates: Rates, used: Tokens)
    ensures SideUsd(rates.perMillionIn, used.inp) + SideUsd(rates.perMillionOut, used.out) == ExactBill(rates, [used])
  {
    TotalsOfOne(used);
    SideIsCharged(rates.perMillionIn, used.inp);
    SideIsCharged(rates.perMillionOut, used.out);
  }

  /** A missing estimate contributes nothing to the exact bill. */
  lemma EstimateBound(rates: Rates, used: Tokens)
    ensures var exact := ExactBill(rates, [used]);
            -0.0000005 <= Usd(EstimateUsd(rates, used).GetOr(0)) - exact <= 0.0000005
    ensures EstimateUsd(rates, used).None? <==> rates.PricingOff() || !AnyCountKnown([used])
  {
    EstimateIsExact(rates, used);
    TotalsOfOne(used);
    assert AnyCountKnown([used]) <==> [used][0].inp.Some? || [used][0].out.Some?;
  }

  /** The stored cost is within one micro-dollar of the exact bill of every call, and it is null
      exactly when pricing is off or no call reported any count. */
  lemma StoredCostBound(rates: Rates, generation: Tokens, first: Tokens, retry: Option<Tokens>)
    ensures var stored := JudgePathCost(rates, generation, JudgeUsage(first, retry));
            var calls := CallsOf(generation, first, retry);
            && (stored.None? <==> rates.PricingOff() || !AnyCountKnown(calls))
            && (stored.Some? ==> -0.000001 <= Usd(stored.value) - ExactBill(rates, calls) <= 0.000001)
  {
    var judge := JudgeUsage(first, retry);
    var calls := CallsOf(generation, first, retry);
    UsageBill(rates, generation, first, retry);
    EstimateBound(rates, generation);
    EstimateBound(rates, judge);
    assert AnyCountKnown([generation]) <==> [generation][0].inp.Some? || [generation][0].out.Some?;
    assert AnyCountKnown([judge]) <==> [judge][0].inp.Some? || [judge][0].out.Some?;
    assert AnyCountKnown(calls) <==> AnyCountKnown([generation]) || AnyCountKnown([judge]) by {
      assert calls[0] == generation && calls[1] == first;
      assert retry.Some? ==> calls[2] == retry.value;
    }
  }
}
