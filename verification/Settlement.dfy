/**
 From an economic policy to settled money: captured authority, prepared requests and
 settlement receipts.
 */
module Settlement {
  import opened Basics
  import opened Pricing

  datatype Refused =
    | Priced(why: Refusal)
    | MalformedPolicy | FallbackNotAuthorized | AuthorityExceeded
    | OrdinalExceeded | OutputCapExceeded | LiabilityExceeded
    | AuthorityMismatch | UsageUnproven | UsageExceedsOutput | UsageExceedsInput
    | ExceedsReservation | AmountMismatch | MalformedReceipt

  function Lift<T>(r: Result<T, Refusal>): Result<T, Refused> {
    match r case Ok(v) => Ok(v) case Err(e) => Err(Priced(e))
  }

  // ---------------------------------------------------------------- policy and authority

  datatype Policy = Policy(
    authorized: int, maxRequests: int, maxOutput: int, fallbackAuthorized: bool, fallbackRequests: int)

  predicate PolicyAccepted(p: Policy) {
    && Safe(p.authorized) && Safe(p.maxRequests) && p.maxRequests >= 1
    && Safe(p.maxOutput) && p.maxOutput >= 1 && Safe(p.fallbackRequests)
    && (!p.fallbackAuthorized ==> p.fallbackRequests == 0)
  }

  /** The captured facts; the pricing entry stands for its hash. */
  datatype Authority = Authority(
    entry: Entry, contextWindow: Option<nat>, maxOutput: nat, maxRequests: nat,
    perRequest: nat, total: nat, fallbackMaximum: nat)

  function BuildAuthority(p: Policy, e: Entry, model: Model): Result<Authority, Refused>
    requires WellFormed(e)
  {
    if !p.fallbackAuthorized && p.fallbackRequests != 0 then Err(FallbackNotAuthorized)
    else if !PolicyAccepted(p) then Err(MalformedPolicy)
    else
      var liability :- Lift(ComputeMaximumLiability(e, model, p.maxOutput, p.maxRequests, p.fallbackRequests));
      var perRequest := Share(liability.maximum, liability.chargeableRequests);
      var fallbackMaximum :- Lift(MultiplyMicroUsd(perRequest, p.fallbackRequests));
      if liability.maximum > p.authorized then Err(AuthorityExceeded)
      else
        Ok(Authority(e, liability.contextWindow, p.maxOutput, p.maxRequests,
                     perRequest, liability.maximum, fallbackMaximum))
  }

  /** What the captured numbers promise: every request the policy allows, fallbacks included, fits
      inside the authorized amount, and one request's maximum is the price of its whole window. */
  ghost predicate Bounds(a: Authority, p: Policy) {
    && WellFormed(a.entry)
    && a.maxRequests == p.maxRequests >= 1 && a.maxOutput == p.maxOutput
    && a.perRequest * (p.maxRequests + p.fallbackRequests) == a.total <= p.authorized
    && p.fallbackRequests >= 0
    && a.fallbackMaximum == a.perRequest * p.fallbackRequests
    && (if ZeroRated(a.entry) then a.contextWindow.None? && a.perRequest == 0
        else a.contextWindow.Some?
             && ComputeActualCost(a.entry, a.contextWindow.value, a.maxOutput, 1) == Ok(a.perRequest)
             && Costs(a.entry, a.contextWindow.value, a.maxOutput, 1, a.perRequest))
  }

  /** Truncating the total back to one request loses nothing. */
  lemma AuthorityBounds(p: Policy, e: Entry, model: Model)
    requires WellFormed(e) && BuildAuthority(p, e, model).Ok?
    ensures Bounds(BuildAuthority(p, e, model).value, p)
  {
    hide ComputeActualCost;
    var liability := ComputeMaximumLiability(e, model, p.maxOutput, p.maxRequests, p.fallbackRequests).value;
    assert liability.chargeableRequests == p.maxRequests + p.fallbackRequests;
    if !ZeroRated(e) {
      var cost := ComputeActualCost(e, model.contextWindow, p.maxOutput, 1).value;
      ShareExact(cost, liability.chargeableRequests);
      CostMeans(e, model.contextWindow, p.maxOutput, 1);
      hide Fits, Costs;
    }
  }

  /** What all requests of a policy could cost together is within what it authorizes. */
  ghost predicate Affordable(p: Policy, e: Entry, model: Model) {
    && p.maxOutput <= model.maxOutput && Fits(e, model.contextWindow, p.maxOutput, 1)
    && forall cost :: Costs(e, model.contextWindow, p.maxOutput, 1, cost) ==>
         cost * (p.maxRequests + p.fallbackRequests) <= p.authorized
  }

  lemma LiabilityMeans(p: Policy, e: Entry, model: Model)
    requires WellFormed(e) && PolicyAccepted(p) && Safe(p.maxRequests + p.fallbackRequests) && !ZeroRated(e)
    ensures
      var liability := ComputeMaximumLiability(e, model, p.maxOutput, p.maxRequests, p.fallbackRequests);
      var cost, n := ComputeActualCost(e, model.contextWindow, p.maxOutput, 1), p.maxRequests + p.fallbackRequests;
      && (liability.Ok? <==> p.maxOutput <= model.maxOutput && cost.Ok? && cost.value * n <= MAX_MICRO_USD)
      && (liability.Ok? ==> liability.value.maximum == cost.value * n && liability.value.chargeableRequests == n)
  {
    hide ComputeActualCost;
  }

  /** Truncating back to one request never makes a fallback overflow. */
  lemma AuthorityFollows(p: Policy, e: Entry, model: Model, cost: nat)
    requires WellFormed(e) && PolicyAccepted(p) && Safe(p.maxRequests + p.fallbackRequests)
    requires
      var liability := ComputeMaximumLiability(e, model, p.maxOutput, p.maxRequests, p.fallbackRequests);
      var n := p.maxRequests + p.fallbackRequests;
      liability.Ok? ==>
        && liability.value.maximum == cost * n && liability.value.chargeableRequests == n
        && Share(cost * n, n) == cost && cost * p.fallbackRequests <= cost * n <= MAX_MICRO_USD
    ensures BuildAuthority(p, e, model).Ok? <==>
      var liability := ComputeMaximumLiability(e, model, p.maxOutput, p.maxRequests, p.fallbackRequests);
      liability.Ok? && liability.value.maximum <= p.authorized
  {
    hide ComputeMaximumLiability, Share;
  }

  /** An authority is captured if and only if the policy authorizes at least one request and one token of
      output, no fallback it does not authorize and nothing that cannot be counted, and the route is free
      or the worst case of every request together is affordable. */
  lemma AuthorityIff(p: Policy, e: Entry, model: Model)
    requires WellFormed(e)
    ensures BuildAuthority(p, e, model).Ok? <==>
      && 0 <= p.authorized <= MAX_MICRO_USD && 0 < p.maxOutput <= MAX_MICRO_USD
      && 0 < p.maxRequests && 0 <= p.fallbackRequests && p.maxRequests + p.fallbackRequests <= MAX_MICRO_USD
      && (p.fallbackRequests > 0 ==> p.fallbackAuthorized)
      && (ZeroRated(e) || Affordable(p, e, model))
  {
    hide ComputeActualCost, Fits, Costs;
    if PolicyAccepted(p) && Safe(p.maxRequests + p.fallbackRequests) && !ZeroRated(e) {
      PricedAuthorityIff(p, e, model);
    }
  }

  lemma PricedAuthorityIff(p: Policy, e: Entry, model: Model)
    requires WellFormed(e) && PolicyAccepted(p) && Safe(p.maxRequests + p.fallbackRequests) && !ZeroRated(e)
    ensures BuildAuthority(p, e, model).Ok? <==> Affordable(p, e, model)
  {
    hide ComputeActualCost, ComputeMaximumLiability, BuildAuthority, Fits, Costs, Share;
    LiabilityMeans(p, e, model);
    CostMeans(e, model.contextWindow, p.maxOutput, 1);
    var cost, n := ComputeActualCost(e, model.contextWindow, p.maxOutput, 1), p.maxRequests + p.fallbackRequests;
    if cost.Ok? {
      ShareExact(cost.value, n);
      ProductMonotone(p.fallbackRequests, n, cost.value);
      AuthorityFollows(p, e, model, cost.value);
      assert Costs(e, model.contextWindow, p.maxOutput, 1, cost.value);
    } else {
      AuthorityFollows(p, e, model, 0);
    }
  }

  // ---------------------------------------------------------------- prepared requests

  datatype Prepared = Prepared(authority: Authority, ordinal: nat, outputCap: nat, liability: nat)

  /** `prepareGovernedProviderRequest`: the ordinal, cap and liability checks. */
  function Prepare(a: Authority, ordinal: int, outputCap: int, liability: int): Result<Prepared, Refused> {
    if !Safe(ordinal) || ordinal < 1 then Err(MalformedReceipt)
    else if ordinal > a.maxRequests then Err(OrdinalExceeded)
    else if !Safe(outputCap) || outputCap < 1 then Err(MalformedReceipt)
    else if outputCap > a.maxOutput then Err(OutputCapExceeded)
    else if !Safe(liability) then Err(MalformedReceipt)
    else if liability > a.perRequest || liability > a.total then Err(LiabilityExceeded)
    else Ok(Prepared(a, ordinal, outputCap, liability))
  }

  /** A request is prepared if and only if it is one of those the authority allows: its ordinal, its cap and
      its liability within the captured maxima. */
  lemma PreparedIff(a: Authority, ordinal: int, outputCap: int, liability: int)
    ensures Prepare(a, ordinal, outputCap, liability).Ok? <==>
      && Safe(ordinal) && Safe(outputCap) && Safe(liability)
      && 0 < ordinal <= a.maxRequests && 0 < outputCap <= a.maxOutput
      && 0 <= liability <= a.perRequest && liability <= a.total
    ensures Prepare(a, ordinal, outputCap, liability).Ok? ==>
      Prepare(a, ordinal, outputCap, liability).value == Prepared(a, ordinal, outputCap, liability)
  {
  }

  // ---------------------------------------------------------------- receipts

  datatype Usage = AssumedMaximum | Metered(input: int, output: int)

  /** Everything a receipt's own hash covers. */
  datatype Claim = Claim(
    authority: Authority, ordinal: nat, usage: Usage, outputCap: nat,
    reserved: int, settled: int, unused: int)

  /** SHA-256 of the canonical claim: an opaque injective image. */
  datatype ReceiptHash = ReceiptHash(preimage: Claim)

  datatype Receipt = Receipt(claim: Claim, hash: ReceiptHash)

  function Sealed(claim: Claim): Receipt {
    Receipt(claim, ReceiptHash(claim))
  }

  function NormalizeUsage(usage: Usage, outputCap: nat, window: Option<nat>): Result<Usage, Refused> {
    match usage
    case AssumedMaximum => Ok(AssumedMaximum)
    case Metered(input, output) =>
      if !Safe(input) || !Safe(output) then Err(UsageUnproven)
      else if output > outputCap then Err(UsageExceedsOutput)
      else if window.Some? && input > window.value then Err(UsageExceedsInput)
      else Ok(usage)
  }

  function Price(e: Entry, usage: Usage, reserved: nat): Result<nat, Refused>
    requires WellFormed(e)
  {
    if usage.AssumedMaximum? then Ok(reserved)
    else Lift(ComputeActualCost(e, usage.input, usage.output, 1))
  }

  /** `buildSettlementReceiptFromCapturedBasis`. */
  function BuildReceipt(q: Prepared, a: Authority, e: Entry, reserved: int, usage: Usage): Result<Receipt, Refused>
    requires WellFormed(e)
  {
    if e != a.entry || q.authority != a then Err(AuthorityMismatch)
    else if !Safe(reserved) then Err(MalformedReceipt)
    else if reserved > a.perRequest then Err(ExceedsReservation)
    else
      var normalized :- NormalizeUsage(usage, q.outputCap, a.contextWindow);
      var settled :- Price(e, normalized, reserved);
      if settled > reserved then Err(ExceedsReservation)
      else Ok(Sealed(Claim(a, q.ordinal, normalized, q.outputCap, reserved, settled, reserved - settled)))
  }

  /** `normalizeSettlementReceipt` with the captured pricing entry in hand. */
  function NormalizeReceipt(r: Receipt, e: Entry): Result<Receipt, Refused>
    requires WellFormed(e)
  {
    var c := r.claim;
    if !Safe(c.reserved) || !Safe(c.settled) || !Safe(c.unused) then Err(MalformedReceipt)
    else if c.settled > c.reserved then Err(ExceedsReservation)
    else if c.unused != c.reserved - c.settled then Err(AmountMismatch)
    else if c.usage.AssumedMaximum? then
      if c.settled != c.reserved then Err(AmountMismatch) else CheckHash(r)
    else
      var usage :- NormalizeUsage(c.usage, c.outputCap, c.authority.contextWindow);
      if e != c.authority.entry then Err(AuthorityMismatch)
      else
        var cost :- Price(e, usage, c.reserved);
        if cost != c.settled then Err(AmountMismatch) else CheckHash(r)
  }

  function CheckHash(r: Receipt): Result<Receipt, Refused> {
    if r.hash == ReceiptHash(r.claim) then Ok(r) else Err(MalformedReceipt)
  }

  /** A claim says exactly what happened to its reserve. */
  ghost predicate Balanced(c: Claim)
    requires WellFormed(c.authority.entry)
  {
    && c.settled + c.unused == c.reserved && 0 <= c.settled && 0 <= c.unused
    && (match c.usage
        case AssumedMaximum => c.settled == c.reserved
        case Metered(input, output) => Costs(c.authority.entry, input, output, 1, c.settled))
  }

  /** Every receipt that is built balances and stays within its authority's per-request maximum. */
  lemma BuiltReceiptBalances(q: Prepared, a: Authority, e: Entry, reserved: int, usage: Usage)
    requires WellFormed(e) && BuildReceipt(q, a, e, reserved, usage).Ok?
    ensures
      var c := BuildReceipt(q, a, e, reserved, usage).value.claim;
      && c.authority == a && a.entry == e && c.ordinal == q.ordinal
      && Balanced(c) && c.reserved == reserved <= a.perRequest
  {
    hide ComputeActualCost, Costs, Fits;
    if usage.Metered? { CostMeans(e, usage.input, usage.output, 1); }
  }

  /** Reading back accepts exactly the receipts the builder issues: a receipt within its authority's
      per-request maximum is accepted if and only if building it again from its own bindings gives the
      same receipt. So an edited amount is refused even under a hash recomputed over the edit. */
  lemma AcceptedIffIssued(r: Receipt, liability: nat)
    requires WellFormed(r.claim.authority.entry)
    ensures
      var c := r.claim;
      var q := Prepared(c.authority, c.ordinal, c.outputCap, liability);
      NormalizeReceipt(r, c.authority.entry).Ok? && c.reserved <= c.authority.perRequest <==>
        BuildReceipt(q, c.authority, c.authority.entry, c.reserved, c.usage) == Ok(r)
  {
    hide ComputeActualCost;
  }

  // ---------------------------------------------------------------- no valid usage is refused

  /** Usage the provider was actually allowed to spend. */
  predicate WithinBounds(usage: Usage, q: Prepared) {
    match usage
    case AssumedMaximum => true
    case Metered(input, output) =>
      && Safe(input) && Safe(output) && output <= q.outputCap
      && (q.authority.contextWindow.Some? ==> input <= q.authority.contextWindow.value)
  }

  /** Against a full per-request reserve, settlement succeeds exactly for usage within the bounds
      the request was sent with: the bound never refuses an honest bill. */
  lemma SettlesIffWithinBounds(p: Policy, e: Entry, model: Model, ordinal: int, outputCap: int, usage: Usage)
    requires WellFormed(e) && BuildAuthority(p, e, model).Ok?
    requires
      var a := BuildAuthority(p, e, model).value;
      Prepare(a, ordinal, outputCap, a.perRequest).Ok?
    ensures
      var a := BuildAuthority(p, e, model).value;
      var q := Prepare(a, ordinal, outputCap, a.perRequest).value;
      BuildReceipt(q, a, e, a.perRequest, usage).Ok? <==> WithinBounds(usage, q)
  {
    AuthorityBounds(p, e, model);
    hide ComputeActualCost;
    var a := BuildAuthority(p, e, model).value;
    if usage.Metered? && Safe(usage.input) && Safe(usage.output) && usage.output <= outputCap {
      if ZeroRated(e) {
        ZeroRatedCostsNothing(e, usage.input, usage.output);
      } else if usage.input <= a.contextWindow.value {
        CostMonotone(e, usage.input, usage.output, a.contextWindow.value, a.maxOutput);
      }
    }
  }

  // ---------------------------------------------------------------- the total

  function TotalSettled(rs: seq<Receipt>): int {
    if |rs| == 0 then 0 else TotalSettled(rs[..|rs| - 1]) + rs[|rs| - 1].claim.settled
  }

  /** A receipt some prepared request under this authority produced. */
  ghost predicate Issued(r: Receipt, a: Authority) {
    exists ordinal, outputCap, liability, reserved, usage ::
      && WellFormed(a.entry)
      && Prepare(a, ordinal, outputCap, liability).Ok?
      && BuildReceipt(Prepare(a, ordinal, outputCap, liability).value, a, a.entry, reserved, usage) == Ok(r)
  }

  ghost predicate DistinctOrdinals(rs: seq<Receipt>) {
    forall i, j :: 0 <= i < j < |rs| ==> rs[i].claim.ordinal != rs[j].claim.ordinal
  }

  lemma IssuedBounds(r: Receipt, a: Authority)
    requires Issued(r, a)
    ensures 1 <= r.claim.ordinal <= a.maxRequests && 0 <= r.claim.settled <= a.perRequest
  {
    hide ComputeActualCost;
  }

  lemma {:induction false} TotalWithinCount(rs: seq<Receipt>, a: Authority)
    requires forall i :: 0 <= i < |rs| ==> Issued(rs[i], a)
    ensures 0 <= TotalSettled(rs) <= |rs| * a.perRequest
  {
    hide Issued;
    if |rs| > 0 {
      TotalWithinCount(rs[..|rs| - 1], a);
      IssuedBounds(rs[|rs| - 1], a);
    }
  }

  /** Distinct ordinals between 1 and `n` are at most `n`. */
  lemma {:induction false} OrdinalsFit(s: set<nat>, n: nat)
    requires forall k :: k in s ==> 1 <= k <= n
    ensures |s| <= n
    decreases n
  {
    if n == 0 {
      assert s == {};
    } else if n in s {
      OrdinalsFit(s - {n}, n - 1);
    } else {
      OrdinalsFit(s, n - 1);
    }
  }

  lemma {:induction false} DistinctAreAsMany(rs: seq<Receipt>)
    requires DistinctOrdinals(rs)
    ensures |set i | 0 <= i < |rs| :: rs[i].claim.ordinal| == |rs|
  {
    if |rs| > 0 {
      var front := rs[..|rs| - 1];
      DistinctAreAsMany(front);
      var before := set i | 0 <= i < |front| :: front[i].claim.ordinal;
      assert (set i | 0 <= i < |rs| :: rs[i].claim.ordinal) == before + {rs[|rs| - 1].claim.ordinal};
    }
  }

  lemma CountWithinAuthority(rs: seq<Receipt>, a: Authority)
    requires (forall i :: 0 <= i < |rs| ==> Issued(rs[i], a)) && DistinctOrdinals(rs)
    ensures |rs| <= a.maxRequests
  {
    hide Issued;
    DistinctAreAsMany(rs);
    forall i | 0 <= i < |rs| ensures 1 <= rs[i].claim.ordinal <= a.maxRequests { IssuedBounds(rs[i], a); }
    OrdinalsFit(set i | 0 <= i < |rs| :: rs[i].claim.ordinal, a.maxRequests);
  }

  lemma CountFitsPolicy(n: nat, a: Authority, p: Policy)
    requires Bounds(a, p) && n <= a.maxRequests
    ensures n * a.perRequest <= p.authorized
  {
    hide ComputeActualCost;
    ProductMonotone(n, p.maxRequests + p.fallbackRequests, a.perRequest);
  }

  /** All the money one authority can ever settle fits in what its policy authorized. */
  lemma TotalNeverExceedsPolicy(p: Policy, e: Entry, model: Model, rs: seq<Receipt>)
    requires WellFormed(e) && BuildAuthority(p, e, model).Ok?
    requires forall i :: 0 <= i < |rs| ==> Issued(rs[i], BuildAuthority(p, e, model).value)
    requires DistinctOrdinals(rs)
    ensures TotalSettled(rs) <= p.authorized
  {
    hide Issued, BuildAuthority, Bounds, TotalSettled;
    var a := BuildAuthority(p, e, model).value;
    AuthorityBounds(p, e, model);
    TotalWithinCount(rs, a);
    CountWithinAuthority(rs, a);
    CountFitsPolicy(|rs|, a, p);
  }
}
