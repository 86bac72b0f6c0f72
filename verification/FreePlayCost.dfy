/**
 What a free-play publication and an attestation may cost. The fee arithmetic is
 exact, over unbounded integers; times are nanoseconds.
 */
module FreePlayCost {
  import opened Wrappers

  const MAX_INT64: int := 0x7fff_ffff_ffff_ffff
  const MAX_SCORE: int := 9007199254740991
  const SECOND: int := 1_000_000_000

  type Int64 = n: int | -MAX_INT64 - 1 <= n <= MAX_INT64

  // ----- the least fee

  /** Division and remainder as the source's: truncated toward zero. */
  function Quo(n: int, d: int): int
    requires d != 0
  {
    if n >= 0 then n / d else -(-n / d)
  }

  function Rem(n: int, d: int): int
    requires d != 0
  {
    n - d * Quo(n, d)
  }

  /** The quotient, plus one if anything remains. */
  function RoundedUp(n: int, d: int): int
    requires d != 0
  {
    if Rem(n, d) != 0 then Quo(n, d) + 1 else Quo(n, d)
  }

  /** `f` is the least fee that pays for `n` at one per `d`. */
  predicate Least(f: int, n: int, d: int) {
    f * d >= n && (f - 1) * d < n
  }

  lemma Euclid(n: int, d: int)
    requires d > 0
    ensures n == d * (n / d) + n % d && 0 <= n % d < d
  {
  }

  /** Rounding up after a truncating division gives the least fee exactly when the amount is not negative or divides. */
  lemma RoundedUpIsLeast(n: int, d: int)
    requires d > 0
    ensures Least(RoundedUp(n, d), n, d) <==> n >= 0 || Rem(n, d) == 0
  {
    var q := Quo(n, d);
    var r := Rem(n, d);
    assert n == d * q + r;
    if n >= 0 {
      Euclid(n, d);
      Shift(q, d);
    } else {
      Euclid(-n, d);
      assert -d < r <= 0 by {
        assert d * q == -(d * (-n / d)) by { Negate(d, -n / d); }
      }
      Shift(q, d);
    }
  }

  lemma Negate(d: int, k: int)
    ensures d * -k == -(d * k)
  {
  }

  lemma Shift(q: int, d: int)
    ensures (q - 1) * d == d * q - d && q * d == d * q && (q + 1) * d == d * q + d
  {
  }

  lemma Monotone(a: int, b: int, d: int)
    requires d > 0
    ensures a <= b <==> a * d <= b * d
  {
    if a < b {
      assert (b - a) * d > 0;
    } else if a > b {
      assert (a - b) * d > 0;
    }
  }

  /** The least fee does not exceed any fee that pays a rate at least as high. */
  lemma LeastIsMonotone(f: int, n: int, d: int, g: int, m: int, e: int)
    requires d > 0 && e > 0 && n * e <= m * d
    requires Least(f, n, d) && g * e >= m
    ensures f <= g
  {
    assert g * e * d >= m * d by { Monotone(m, g * e, d); }
    assert g * e * d == g * d * e;
    assert g * d * e >= n * e;
    Monotone(n, g * d, e);
    assert (f - 1) * d < g * d;
    if g <= f - 1 { Monotone(g, f - 1, d); }
  }

  datatype GasPrice = GasPrice(gas: Int64, price: Int64)

  function MinFee(gasWanted: Int64, gp: GasPrice): int
    requires gp.gas != 0
  {
    RoundedUp(gasWanted * gp.price, gp.gas)
  }

  // ----- PlanFreePlayCost

  datatype Error = Paused | PricesUnavailable | BudgetUnavailable | Conflict | QuoteExpired | Unavailable

  /** Operator settings; `target` stands for the checked chain and realm. */
  datatype Settings = Settings(
    target: nat, targetOk: bool, gasWanted: Int64, storageBytes: Int64, marginNum: Int64, marginDen: Int64,
    maxFee: Int64, maxDeposit: Int64, maxPriceAge: Int64, quoteLifetime: Int64)

  /** One observation of the prices; `observedAt` is absent when it was never set. */
  datatype Prices = Prices(target: nat, height: Int64, observedAt: Option<int>, gasPrice: GasPrice, storagePrice: Int64)

  datatype Plan = Plan(gasWanted: Int64, fee: Int64, deposit: Int64)

  predicate ValidSettings(s: Settings) {
    && s.targetOk && s.gasWanted > 0 && s.storageBytes > 0
    && s.marginDen > 0 && s.marginNum >= s.marginDen
    && 0 < s.maxFee <= MAX_SCORE && 0 < s.maxDeposit <= MAX_SCORE
    && s.maxPriceAge > 0 && s.quoteLifetime >= SECOND
  }

  predicate Usable(s: Settings, p: Prices, now: int) {
    && p.target == s.target && p.height > 0
    && p.observedAt.Some? && p.observedAt.value <= now && now - p.observedAt.value <= s.maxPriceAge
    && p.gasPrice.gas > 0 && p.gasPrice.price > 0 && p.storagePrice > 0
  }

  /** What the gas wanted costs with the margin, as a fraction. */
  function Demand(s: Settings, gp: GasPrice): int {
    s.gasWanted * gp.price * s.marginNum
  }

  function Supply(s: Settings, gp: GasPrice): int {
    gp.gas * s.marginDen
  }

  function PlanFreePlayCost(s: Settings, p: Prices, now: int): Result<Plan, Error> {
    if !ValidSettings(s) then Err(Paused)
    else if !Usable(s, p, now) then Err(PricesUnavailable)
    else
      Positive(p.gasPrice.gas, s.marginDen);
      var fee := RoundedUp(Demand(s, p.gasPrice), Supply(s, p.gasPrice));
      var deposit := s.storageBytes * p.storagePrice;
      if fee <= 0 || deposit <= 0 || fee > s.maxFee || deposit > s.maxDeposit then Err(BudgetUnavailable)
      else Ok(Plan(s.gasWanted, fee, deposit))
  }

  lemma Positive(a: int, b: int)
    requires a > 0 && b > 0
    ensures a * b > 0
  {
  }

  lemma PricesPositive(s: Settings, gp: GasPrice)
    requires ValidSettings(s) && gp.gas > 0 && gp.price > 0
    ensures Supply(s, gp) > 0 && Demand(s, gp) > 0
  {
    Positive(gp.gas, s.marginDen);
    Positive(s.gasWanted, gp.price);
    Positive(s.gasWanted * gp.price, s.marginNum);
  }

  lemma LeastIsPositive(f: int, n: int, d: int)
    requires Least(f, n, d) && n > 0 && d > 0
    ensures f > 0
  {
    Monotone(1, f, d);
  }

  /** The fee is the least that pays for the gas at the price with the margin. */
  lemma PlannedFeeIsLeast(s: Settings, p: Prices)
    requires ValidSettings(s) && p.gasPrice.gas > 0 && p.gasPrice.price > 0
    ensures Supply(s, p.gasPrice) > 0 && Demand(s, p.gasPrice) > 0
    ensures Least(RoundedUp(Demand(s, p.gasPrice), Supply(s, p.gasPrice)), Demand(s, p.gasPrice), Supply(s, p.gasPrice))
    ensures RoundedUp(Demand(s, p.gasPrice), Supply(s, p.gasPrice)) > 0
  {
    PricesPositive(s, p.gasPrice);
    RoundedUpIsLeast(Demand(s, p.gasPrice), Supply(s, p.gasPrice));
    var demand, supply := Demand(s, p.gasPrice), Supply(s, p.gasPrice);
    LeastIsPositive(RoundedUp(demand, supply), demand, supply);
  }

  /** A plan is made exactly when its exact costs fit the caps; then it pays the margin, hence the chain's minimum. */
  lemma PlanIsSound(s: Settings, p: Prices, now: int)
    requires ValidSettings(s) && Usable(s, p, now)
    ensures var r, gp := PlanFreePlayCost(s, p, now), p.gasPrice;
      && (r.Ok? <==>
          && s.maxFee * (gp.gas * s.marginDen) >= s.gasWanted * gp.price * s.marginNum
          && s.storageBytes * p.storagePrice <= s.maxDeposit)
      && (r.Ok? ==>
        && Least(r.value.fee, s.gasWanted * gp.price * s.marginNum, gp.gas * s.marginDen)
        && MinFee(s.gasWanted, p.gasPrice) <= r.value.fee <= s.maxFee
        && r.value.deposit == s.storageBytes * p.storagePrice <= s.maxDeposit
        && r.value.gasWanted == s.gasWanted)
  {
    var n, d := Demand(s, p.gasPrice), Supply(s, p.gasPrice);
    var f := RoundedUp(n, d);
    PlannedFeeIsLeast(s, p);
    Positive(s.storageBytes, p.storagePrice);
    LeastFits(f, n, d, s.maxFee);
    var n0 := s.gasWanted * p.gasPrice.price;
    Positive(s.gasWanted, p.gasPrice.price);
    RoundedUpIsLeast(n0, p.gasPrice.gas);
    MarginCovers(n0, p.gasPrice.gas, s.marginNum, s.marginDen);
    LeastIsMonotone(MinFee(s.gasWanted, p.gasPrice), n0, p.gasPrice.gas, f, n, d);
  }

  /** Sound settings and fresh prices of the target are all that it takes besides. */
  lemma PlanExists(s: Settings, p: Prices, now: int)
    requires s.targetOk && s.gasWanted > 0 && s.storageBytes > 0 && 0 < s.marginDen <= s.marginNum
    requires 0 < s.maxFee < 0x20_0000_0000_0000 && 0 < s.maxDeposit < 0x20_0000_0000_0000
    requires s.maxPriceAge > 0 && s.quoteLifetime >= 1_000_000_000
    requires p.target == s.target && p.height > 0
    requires p.observedAt.Some? && now - s.maxPriceAge <= p.observedAt.value <= now
    requires p.gasPrice.gas > 0 && p.gasPrice.price > 0 && p.storagePrice > 0
    requires s.maxFee * (p.gasPrice.gas * s.marginDen) >= s.gasWanted * p.gasPrice.price * s.marginNum
    requires s.storageBytes * p.storagePrice <= s.maxDeposit
    ensures PlanFreePlayCost(s, p, now).Ok?
  {
    PlanIsSound(s, p, now);
  }

  /** The least fee fits a cap exactly when the cap pays. */
  lemma LeastFits(f: int, n: int, d: int, cap: int)
    requires d > 0 && Least(f, n, d)
    ensures f <= cap <==> cap * d >= n
  {
    if f <= cap {
      Monotone(f, cap, d);
    } else {
      Monotone(cap, f - 1, d);
    }
  }

  lemma MarginCovers(n: int, d: int, num: int, den: int)
    requires n > 0 && d > 0 && num >= den > 0
    ensures n * (d * den) <= n * num * d
  {
    Positive(n, d);
    Monotone(den, num, n * d);
    assert den * (n * d) == n * (d * den);
    assert num * (n * d) == n * num * d;
  }

  /** The unit price of gas in `q` is no higher than in `p`. */
  predicate NotRisen(p: GasPrice, q: GasPrice) {
    q.price * p.gas <= p.price * q.gas
  }

  /** Plans are monotone in both prices. */
  lemma PlanIsMonotone(s: Settings, p: Prices, q: Prices, t: int, u: int)
    requires PlanFreePlayCost(s, p, t).Ok? && ValidSettings(s) && Usable(s, q, u)
    requires NotRisen(p.gasPrice, q.gasPrice) && q.storagePrice <= p.storagePrice
    ensures PlanFreePlayCost(s, q, u).Ok?
    ensures PlanFreePlayCost(s, q, u).value.fee <= PlanFreePlayCost(s, p, t).value.fee
    ensures PlanFreePlayCost(s, q, u).value.deposit <= PlanFreePlayCost(s, p, t).value.deposit
  {
    PlanIsSound(s, p, t);
    PlannedFeeIsLeast(s, p);
    PlannedFeeIsLeast(s, q);
    RatioKept(s, p.gasPrice, q.gasPrice);
    var demand, supply := Demand(s, p.gasPrice), Supply(s, p.gasPrice);
    var demand', supply' := Demand(s, q.gasPrice), Supply(s, q.gasPrice);
    LeastIsMonotone(RoundedUp(demand', supply'), demand', supply', RoundedUp(demand, supply), demand, supply);
    Monotone(q.storagePrice, p.storagePrice, s.storageBytes);
    Positive(s.storageBytes, q.storagePrice);
  }

  lemma RatioKept(s: Settings, p: GasPrice, q: GasPrice)
    requires ValidSettings(s) && NotRisen(p, q)
    ensures Demand(s, q) * Supply(s, p) <= Demand(s, p) * Supply(s, q)
  {
    Positive(s.gasWanted, s.marginNum);
    Positive(s.gasWanted * s.marginNum, s.marginDen);
    var k := s.gasWanted * s.marginNum * s.marginDen;
    Monotone(q.price * p.gas, p.price * q.gas, k);
    Collect(s.gasWanted, q.price, s.marginNum, p.gas, s.marginDen);
    Collect(s.gasWanted, p.price, s.marginNum, q.gas, s.marginDen);
  }

  lemma Collect(a: int, x: int, b: int, y: int, c: int)
    ensures a * x * b * (y * c) == x * y * (a * b * c)
  {
    assert a * x * b == x * (a * b);
    assert x * (a * b) * (y * c) == x * y * (a * b * c) by {
      assert (a * b) * (y * c) == y * (a * b * c);
      assert x * ((a * b) * (y * c)) == x * (y * (a * b * c));
    }
  }

  // ----- the quote, and the guard before the broadcast

  /** A run with the checks of its entry that do not depend on the prices. */
  datatype Run = Run(target: nat, id: nat, payload: nat, entryOk: bool, payloadOk: bool)

  datatype Quote = Quote(idsOk: bool, run: nat, payload: nat, studio: bool, expiresAt: int, maxFee: Int64,
                         maxDeposit: Int64)

  /** Whole seconds. */
  function Unix(t: int): int {
    t / SECOND
  }

  function CurrentPlan(s: Settings, prices: Option<Prices>, now: int): Result<Plan, Error> {
    if prices.None? then Err(PricesUnavailable) else PlanFreePlayCost(s, prices.value, now)
  }

  /** `clock(k)` is the `k`-th reading of the clock. */
  function MakeQuote(s: Settings, run: Run, prices: Option<Prices>, available: bool, clock: nat -> int):
    Result<Quote, Error>
  {
    if run.target != s.target || !run.entryOk || !run.payloadOk then Err(Conflict)
    else
      var plan := CurrentPlan(s, prices, clock(0));
      if plan.Err? then Err(plan.error)
      else
        var quote :=
          Quote(true, run.id, run.payload, true, Unix(clock(1) + s.quoteLifetime), plan.value.fee, plan.value.deposit);
        if !available then Err(Unavailable)
        else if quote.expiresAt <= Unix(clock(2)) then Err(QuoteExpired)
        else Ok(quote)
  }

  function ValidateBroadcast(s: Settings, run: Run, quote: Quote, gasWanted: Int64, prices: Option<Prices>,
                             clock: nat -> int):
    Result<(), Error>
  {
    if || run.target != s.target || !run.entryOk || run.id != quote.run || run.payload != quote.payload
       || !quote.idsOk || !quote.studio || quote.maxFee <= 0 || quote.maxDeposit <= 0
       || quote.maxFee > s.maxFee || quote.maxDeposit > s.maxDeposit || gasWanted != s.gasWanted
    then Err(Conflict)
    else if quote.expiresAt <= Unix(clock(0)) then Err(QuoteExpired)
    else
      var plan := CurrentPlan(s, prices, clock(1));
      if plan.Err? then Err(plan.error)
      else if quote.expiresAt <= Unix(clock(2)) then Err(QuoteExpired)
      else if plan.value.fee > quote.maxFee || plan.value.deposit > quote.maxDeposit then Err(BudgetUnavailable)
      else Ok(())
  }

  /** An unexpired quote for the run still passes on fresh prices if neither unit price rose. */
  lemma QuoteStillPasses(s: Settings, run: Run, p: Option<Prices>, available: bool, clock: nat -> int,
                         q: Prices, later: nat -> int)
    requires MakeQuote(s, run, p, available, clock).Ok? && p.Some?
    requires Usable(s, q, later(1)) && NotRisen(p.value.gasPrice, q.gasPrice) && q.storagePrice <= p.value.storagePrice
    requires var quote := MakeQuote(s, run, p, available, clock).value;
      Unix(later(0)) < quote.expiresAt && Unix(later(2)) < quote.expiresAt
    ensures var quote := MakeQuote(s, run, p, available, clock).value;
      ValidateBroadcast(s, run, quote, s.gasWanted, Some(q), later) == Ok(())
  {
    PlanIsSound(s, p.value, clock(0));
    PlanIsMonotone(s, p.value, q, clock(0), later(1));
  }

  /** Whatever passes pays the chain's minimum at the prices just read, within the settings' caps. */
  lemma PassedPays(s: Settings, run: Run, quote: Quote, gasWanted: Int64, q: Prices, clock: nat -> int)
    requires ValidateBroadcast(s, run, quote, gasWanted, Some(q), clock) == Ok(())
    ensures q.gasPrice.gas > 0 && quote.maxFee * q.gasPrice.gas >= gasWanted * q.gasPrice.price
    ensures quote.maxFee <= s.maxFee && s.storageBytes * q.storagePrice <= quote.maxDeposit <= s.maxDeposit
    ensures Unix(clock(0)) < quote.expiresAt && Unix(clock(2)) < quote.expiresAt
    ensures run.id == quote.run && run.payload == quote.payload && run.target == s.target && run.entryOk
    ensures quote.idsOk && quote.studio && gasWanted == s.gasWanted
  {
    PlanIsSound(s, q, clock(1));
    Positive(gasWanted, q.gasPrice.price);
    RoundedUpIsLeast(gasWanted * q.gasPrice.price, q.gasPrice.gas);
    Monotone(MinFee(gasWanted, q.gasPrice), quote.maxFee, q.gasPrice.gas);
  }

  /** A run of the target is quoted whenever there is a plan, the allowance is there, and the quote is not late. */
  lemma QuoteMade(s: Settings, run: Run, p: Prices, clock: nat -> int)
    requires run.target == s.target && run.entryOk && run.payloadOk && PlanFreePlayCost(s, p, clock(0)).Ok?
    requires Unix(clock(2)) < Unix(clock(1) + s.quoteLifetime)
    ensures var r, plan := MakeQuote(s, run, Some(p), true, clock), PlanFreePlayCost(s, p, clock(0)).value;
      && r.Ok? && r.value.run == run.id && r.value.payload == run.payload
      && r.value.maxFee == plan.fee && r.value.maxDeposit == plan.deposit
  {
  }

  /** A quote passes for no run but the one it was made for, and for its payload only, until it expires. */
  lemma QuoteForOneRun(s: Settings, run: Run, p: Option<Prices>, available: bool, clock: nat -> int, t: Settings,
                       other: Run, gasWanted: Int64, q: Option<Prices>, later: nat -> int)
    requires MakeQuote(s, run, p, available, clock).Ok?
    requires ValidateBroadcast(t, other, MakeQuote(s, run, p, available, clock).value, gasWanted, q, later) == Ok(())
    ensures other.id == run.id && other.payload == run.payload && run.target == s.target && other.target == t.target
    ensures Unix(later(0)) < Unix(clock(1) + s.quoteLifetime) && Unix(later(2)) < Unix(clock(1) + s.quoteLifetime)
    ensures q.Some? && gasWanted == t.gasWanted
  {
  }

  // ----- the attester's fee

  const DEFAULT_GAS_WANTED: Int64 := 50_000_000
  const MAX_GAS_WANTED: Int64 := 1_000_000_000
  const FEE_MARGIN: int := 2
  const DEFAULT_MAX_FEE: Int64 := 200_000
  const FALLBACK: GasPrice := GasPrice(1000, 1)

  datatype FeeSettings = FeeSettings(gasWanted: Int64, gasFee: Int64, maxGasFee: Int64)

  datatype Source = Env | LivePrice | Fallback

  datatype FeePlan = FeePlan(gasWanted: Int64, gasFee: Int64, source: Source)

  datatype FeeError = GasAboveCeiling | FeeBelowMinimum | FeeAboveCap

  function PriceUsed(live: Option<GasPrice>): GasPrice {
    if live.Some? then live.value else FALLBACK
  }

  function PlanAttestFee(s: FeeSettings, live: Option<GasPrice>): Result<FeePlan, FeeError>
    requires live.Some? ==> live.value.gas > 0 && live.value.price > 0
  {
    var gasWanted := if s.gasWanted <= 0 then DEFAULT_GAS_WANTED else s.gasWanted;
    var maxFee := if s.maxGasFee <= 0 then DEFAULT_MAX_FEE else s.maxGasFee;
    var lo := MinFee(gasWanted, PriceUsed(live));
    if gasWanted > MAX_GAS_WANTED then Err(GasAboveCeiling)
    else if s.gasFee > 0 && s.gasFee < lo then Err(FeeBelowMinimum)
    else
      var fee := if s.gasFee > 0 then s.gasFee else FEE_MARGIN * lo;
      if fee > maxFee then Err(FeeAboveCap)
      else
        MinFeePositive(gasWanted, PriceUsed(live));
        Ok(FeePlan(gasWanted, fee, if s.gasFee > 0 then Env else if live.Some? then LivePrice else Fallback))
  }

  lemma MinFeePositive(gasWanted: Int64, gp: GasPrice)
    requires gasWanted > 0 && gp.gas > 0 && gp.price > 0
    ensures Least(MinFee(gasWanted, gp), gasWanted * gp.price, gp.gas) && MinFee(gasWanted, gp) > 0
  {
    Positive(gasWanted, gp.price);
    RoundedUpIsLeast(gasWanted * gp.price, gp.gas);
    LeastIsPositive(MinFee(gasWanted, gp), gasWanted * gp.price, gp.gas);
  }

  /**
   A planned fee pays the chain's price, stays under the cap, and, unless it is explicit, pays a price twice
   as high.
   */
  lemma AttestFeePays(s: FeeSettings, live: Option<GasPrice>)
    requires live.Some? ==> live.value.gas > 0 && live.value.price > 0
    requires PlanAttestFee(s, live).Ok?
    ensures var gp, plan := PriceUsed(live), PlanAttestFee(s, live).value;
      && plan.gasFee * gp.gas >= plan.gasWanted * gp.price
      && 0 < plan.gasFee <= (if s.maxGasFee <= 0 then DEFAULT_MAX_FEE else s.maxGasFee)
      && 0 < plan.gasWanted <= MAX_GAS_WANTED
      && (!plan.source.Env? ==> plan.gasFee * gp.gas >= plan.gasWanted * (2 * gp.price))
  {
    var gp, plan := PriceUsed(live), PlanAttestFee(s, live).value;
    var lo := MinFee(plan.gasWanted, gp);
    MinFeePositive(plan.gasWanted, gp);
    Positive(plan.gasWanted, gp.price);
    if plan.source.Env? {
      Monotone(lo, plan.gasFee, gp.gas);
    } else {
      Doubled(lo, plan.gasFee, gp.gas, plan.gasWanted, gp.price);
    }
  }

  /** A fee is planned exactly when it pays the chain's price within the cap: the explicit one, or twice the least. */
  lemma AttestFeeExists(s: FeeSettings, live: Option<GasPrice>, least: int)
    requires live.Some? ==> live.value.gas > 0 && live.value.price > 0
    requires var gp, gas := PriceUsed(live), if s.gasWanted <= 0 then 50_000_000 else s.gasWanted;
      least * gp.gas >= gas * gp.price && (least - 1) * gp.gas < gas * gp.price
    ensures var cap, gas := if s.maxGasFee <= 0 then 200_000 else s.maxGasFee,
                            if s.gasWanted <= 0 then 50_000_000 else s.gasWanted;
      PlanAttestFee(s, live).Ok? <==>
        gas <= 1_000_000_000 && if s.gasFee > 0 then least <= s.gasFee <= cap else 2 * least <= cap
  {
    var gp, gas := PriceUsed(live), if s.gasWanted <= 0 then DEFAULT_GAS_WANTED else s.gasWanted;
    MinFeePositive(gas, gp);
    LeastIsOne(least, MinFee(gas, gp), gas * gp.price, gp.gas);
  }

  lemma LeastIsOne(f: int, g: int, n: int, d: int)
    requires d > 0 && Least(f, n, d) && Least(g, n, d)
    ensures f == g
  {
    if f < g {
      Monotone(f, g - 1, d);
    } else if g < f {
      Monotone(g, f - 1, d);
    }
  }

  lemma Doubled(lo: int, fee: int, gas: int, wanted: int, price: int)
    requires lo * gas >= wanted * price > 0 && fee == FEE_MARGIN * lo
    ensures fee * gas >= wanted * (2 * price) && fee * gas >= wanted * price
  {
    assert fee * gas == 2 * (lo * gas);
    assert wanted * (2 * price) == 2 * (wanted * price);
  }
}
