/**
 Integer micro-USD pricing: what a request may cost at most, and what it did cost.
 */
module Pricing {
  import opened Basics

  const MAX_MICRO_USD := 9007199254740991
  const TOKENS_PER_RATE_UNIT := 1000000

  datatype Refusal = Malformed | Overflow | NotHardBoundable | CapExceedsModel

  /** Rates in micro-USD per million tokens, and a fixed charge per request. */
  datatype Entry = Entry(inputRate: nat, outputRate: nat, requestMicroUsd: nat)

  /** A zero-rated entry carries the `catalog_maximum_exactly_zero` bound method. */
  predicate ZeroRated(e: Entry) {
    e.inputRate == 0 && e.outputRate == 0 && e.requestMicroUsd == 0
  }

  predicate WellFormed(e: Entry) {
    e.inputRate <= MAX_MICRO_USD && e.outputRate <= MAX_MICRO_USD && e.requestMicroUsd <= MAX_MICRO_USD
  }

  predicate Safe(n: int) {
    0 <= n <= MAX_MICRO_USD
  }

  /** The model snapshot the runtime itself declares. */
  datatype Model = Model(contextWindow: nat, maxOutput: nat)

  // ---------------------------------------------------------------- arithmetic

  /** The least whole number of micro-USD that covers `count` tokens at `rate`. */
  ghost predicate CeilingCharge(count: int, rate: nat, charge: int) {
    && charge * TOKENS_PER_RATE_UNIT >= count * rate
    && (charge - 1) * TOKENS_PER_RATE_UNIT < count * rate
  }

  function ChargeForUnits(count: int, rate: nat): (r: Result<nat, Refusal>)
    requires rate <= MAX_MICRO_USD
    ensures r.Ok? <==> Safe(count) && count * rate <= MAX_MICRO_USD
    ensures r.Ok? ==> CeilingCharge(count, rate, r.value) && r.value <= MAX_MICRO_USD
  {
    if !Safe(count) then Err(Malformed)
    else if count == 0 || rate == 0 then Ok(0)
    else if count > MAX_MICRO_USD / rate then
      QuotientGuards(count, rate);
      Err(Overflow)
    else
      QuotientGuards(count, rate);
      var product := count * rate;
      var charge := product / TOKENS_PER_RATE_UNIT + if product % TOKENS_PER_RATE_UNIT == 0 then 0 else 1;
      Ok(charge)
  }

  /** The division guard refuses exactly the products that do not fit. */
  lemma QuotientGuards(a: nat, b: nat)
    requires b > 0
    ensures a > MAX_MICRO_USD / b <==> a * b > MAX_MICRO_USD
  {
    var q := MAX_MICRO_USD / b;
    assert q * b <= MAX_MICRO_USD < (q + 1) * b by {
      assert MAX_MICRO_USD == q * b + MAX_MICRO_USD % b;
    }
    if a > q {
      assert a * b >= (q + 1) * b by { ProductMonotone(q + 1, a, b); }
    } else {
      assert a * b <= q * b by { ProductMonotone(a, q, b); }
    }
  }

  lemma ProductMonotone(a: int, b: int, c: nat)
    requires a <= b
    ensures a * c <= b * c
  {
  }

  /** `Math.trunc(total / count)` on non-negative integers. */
  function Share(total: nat, count: nat): (q: nat)
    ensures count > 0 ==> q * count <= total < (q + 1) * count
  {
    if count == 0 then 0
    else
      var q := total / count;
      assert total == q * count + total % count;
      assert q >= 0 by { if q < 0 { ProductMonotone(q, -1, count); } }
      q
  }

  lemma ShareExact(x: nat, n: nat)
    requires n > 0
    ensures Share(x * n, n) == x
  {
    var q := Share(x * n, n);
    if q < x { ProductMonotone(q + 1, x, n); }
    if q > x { ProductMonotone(x + 1, q, n); }
  }

  /** Fewer tokens never cost more, and never overflow where more did not. */
  lemma ChargeMonotone(low: int, high: int, rate: nat)
    requires 0 <= low <= high && rate <= MAX_MICRO_USD && ChargeForUnits(high, rate).Ok?
    ensures ChargeForUnits(low, rate).Ok?
    ensures ChargeForUnits(low, rate).value <= ChargeForUnits(high, rate).value
  {
    ProductMonotone(low, high, rate);
    var a, b := ChargeForUnits(low, rate).value, ChargeForUnits(high, rate).value;
    assert (a - 1) * TOKENS_PER_RATE_UNIT < b * TOKENS_PER_RATE_UNIT;
  }

  function AddMicroUsd(left: nat, right: nat): Result<nat, Refusal> {
    if left + right > MAX_MICRO_USD then Err(Overflow) else Ok(left + right)
  }

  function MultiplyMicroUsd(amount: nat, factor: nat): (r: Result<nat, Refusal>)
    ensures r.Ok? <==> amount * factor <= MAX_MICRO_USD
    ensures r.Ok? ==> r.value == amount * factor
  {
    if amount == 0 || factor == 0 then Ok(0)
    else
      QuotientGuards(amount, factor);
      if amount > MAX_MICRO_USD / factor then Err(Overflow) else Ok(amount * factor)
  }

  // ---------------------------------------------------------------- liability and cost

  datatype Liability = Liability(contextWindow: Option<nat>, chargeableRequests: nat, maximum: nat)

  /** Whole context window in, whole output cap out, once per chargeable request. */
  function ComputeMaximumLiability(e: Entry, model: Model, maxOutput: int, requests: int, fallbacks: int)
    : Result<Liability, Refusal>
    requires WellFormed(e)
  {
    if !Safe(requests) || requests < 1 || !Safe(fallbacks) then Err(Malformed)
    else
      var chargeable :- AddMicroUsd(requests, fallbacks);
      if ZeroRated(e) then
        if Safe(maxOutput) then Ok(Liability(None, chargeable, 0)) else Err(Malformed)
      else if !Safe(maxOutput) || maxOutput == 0 then Err(Malformed)
      else if maxOutput > model.maxOutput then Err(CapExceedsModel)
      else
        var perRequest :- ComputeActualCost(e, model.contextWindow, maxOutput, 1);
        var maximum :- MultiplyMicroUsd(perRequest, chargeable);
        Ok(Liability(Some(model.contextWindow), chargeable, maximum))
  }

  function ComputeActualCost(e: Entry, input: int, output: int, requests: nat): Result<nat, Refusal>
    requires WellFormed(e)
  {
    var inputCharge :- ChargeForUnits(input, e.inputRate);
    var outputCharge :- ChargeForUnits(output, e.outputRate);
    var fixed :- MultiplyMicroUsd(e.requestMicroUsd, requests);
    var usage :- AddMicroUsd(inputCharge, outputCharge);
    AddMicroUsd(usage, fixed)
  }

  /** What a request with these counts costs: each count at its own rate, rounded up on its own, and the
      fixed charge of every request. */
  ghost predicate Costs(e: Entry, input: int, output: int, requests: nat, cost: int) {
    exists x: nat, y: nat ::
      && CeilingCharge(input, e.inputRate, x) && CeilingCharge(output, e.outputRate, y)
      && cost == x + y + e.requestMicroUsd * requests
  }

  /** Every amount the computation meets on the way can be represented. */
  ghost predicate Fits(e: Entry, input: int, output: int, requests: nat) {
    && Safe(input) && Safe(output)
    && input * e.inputRate <= MAX_MICRO_USD && output * e.outputRate <= MAX_MICRO_USD
    && e.requestMicroUsd * requests <= MAX_MICRO_USD
    && (forall cost :: Costs(e, input, output, requests, cost) ==> cost <= MAX_MICRO_USD)
  }

  lemma CeilingUnique(count: int, rate: nat, x: int, y: int)
    requires CeilingCharge(count, rate, x) && CeilingCharge(count, rate, y)
    ensures x == y
  {
  }

  /** The computation succeeds if and only if everything fits, and then gives that cost, to the unit. */
  lemma CostMeans(e: Entry, input: int, output: int, requests: nat)
    requires WellFormed(e)
    ensures ComputeActualCost(e, input, output, requests).Ok? <==> Fits(e, input, output, requests)
    ensures ComputeActualCost(e, input, output, requests).Ok? ==>
      forall cost :: Costs(e, input, output, requests, cost) <==> cost == ComputeActualCost(e, input, output, requests).value
  {
    var left, right := ChargeForUnits(input, e.inputRate), ChargeForUnits(output, e.outputRate);
    if left.Ok? && right.Ok? {
      CostsExactly(e, input, output, requests, left.value, right.value);
      hide CeilingCharge, Costs, ChargeForUnits;
      assert Costs(e, input, output, requests, left.value + right.value + e.requestMicroUsd * requests);
    }
  }

  lemma CostsExactly(e: Entry, input: int, output: int, requests: nat, x: nat, y: nat)
    requires CeilingCharge(input, e.inputRate, x) && CeilingCharge(output, e.outputRate, y)
    ensures forall cost :: Costs(e, input, output, requests, cost) <==> cost == x + y + e.requestMicroUsd * requests
  {
    forall a: nat, b: nat | CeilingCharge(input, e.inputRate, a) && CeilingCharge(output, e.outputRate, b)
      ensures a == x && b == y
    {
      CeilingUnique(input, e.inputRate, a, x);
      CeilingUnique(output, e.outputRate, b, y);
    }
    hide CeilingCharge;
  }

  /** Cost grows with both token counts. */
  lemma CostMonotone(e: Entry, input: int, output: int, maxInput: int, maxOutput: int)
    requires WellFormed(e) && 0 <= input <= maxInput && 0 <= output <= maxOutput
    requires ComputeActualCost(e, maxInput, maxOutput, 1).Ok?
    ensures ComputeActualCost(e, input, output, 1).Ok?
    ensures ComputeActualCost(e, input, output, 1).value <= ComputeActualCost(e, maxInput, maxOutput, 1).value
  {
    ChargeMonotone(input, maxInput, e.inputRate);
    ChargeMonotone(output, maxOutput, e.outputRate);
  }

  lemma ZeroRatedCostsNothing(e: Entry, input: int, output: int)
    requires ZeroRated(e) && Safe(input) && Safe(output)
    ensures ComputeActualCost(e, input, output, 1) == Ok(0)
  {
  }
}
