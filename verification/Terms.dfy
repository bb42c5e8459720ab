/** The two halves of a quote: `produce_terms` and `produce_provider_terms` in wrasse/engine.py. */
module Terms {
  import opened Constants
  import opened Numeric
  import opened Engine
  import opened CausalSet

  datatype BuyerTerms = BuyerTerms(
    providerBondBps: int,
    serviceWindow: int,
    maxPriceBps: int,
    minPayoutDelay: int,
    risk: real,
    recalledIds: seq<nat>,
    usedIds: seq<nat>)

  datatype ProviderTerms = ProviderTerms(
    priceBps: int,
    payoutDelay: int,
    priceFloorBps: int,
    maxBondBps: int,
    minServiceWindow: int,
    risk: real,
    recalledIds: seq<nat>,
    usedIds: seq<nat>)

  datatype EngineError = BadBaseline | ConflictingRecords(id: nat)

  function RowIds(rows: seq<Row>): set<nat> {
    set i | 0 <= i < |rows| :: rows[i].id
  }

  /** The buyer's limits carry no risk term. */
  function MaxPriceBps(profile: Profile): int {
    BPS_DENOMINATOR + profile.priceCeilingPremiumBps
  }

  function MinPayoutDelay(profile: Profile, baseDelay: int): int {
    ClampDuration(baseDelay * profile.payoutDelayFloorBps / BPS_DENOMINATOR)
  }

  /** The provider's least delivery time carries no risk term either. */
  function MinServiceWindow(baseWindow: int): int {
    ClampDuration(Min(MIN_SERVICE_WINDOW_SECONDS, baseWindow))
  }

  function BuyerPricingFor(profile: Profile, base: Baseline): Pricing {
    BuyerPricing(profile, base.providerBondBps, base.serviceWindow)
  }

  function ProviderPricingFor(persona: Persona, base: Baseline): Pricing {
    ProviderPricing(persona, base.payoutDelay)
  }

  /** What the buyer publishes on a history already collapsed to one record per receipt. */
  function BuyerTermsOn(profile: Profile, base: Baseline, dims: seq<Dimension>, rows: seq<Row>): BuyerTerms {
    var p := BuyerPricingFor(profile, base);
    var numbers := Committed(p, dims, rows);
    BuyerTerms(
      numbers.bondBps, numbers.serviceWindow,
      MaxPriceBps(profile), MinPayoutDelay(profile, base.payoutDelay),
      DisplayedRisk(ClampRisk(RawRisk(p, dims, rows))), SortedIds(RowIds(rows)), UsedEvidence(p, dims, rows))
  }

  function ProviderTermsOn(persona: Persona, base: Baseline, dims: seq<Dimension>, rows: seq<Row>): ProviderTerms {
    var p := ProviderPricingFor(persona, base);
    var numbers := Committed(p, dims, rows);
    ProviderTerms(
      numbers.priceBps, numbers.payoutDelay, numbers.priceFloorBps, numbers.maxBondBps,
      MinServiceWindow(base.serviceWindow),
      DisplayedRisk(ClampRisk(RawRisk(p, dims, rows))), SortedIds(RowIds(rows)), UsedEvidence(p, dims, rows))
  }

  /** The engine's own check; the bond may be zero. */
  predicate PositiveBaseline(base: Baseline) {
    base.priceWei > 0 && base.serviceWindow > 0 && base.payoutDelay > 0
  }

  method ProduceTerms(profile: Profile, base: Baseline, dims: seq<Dimension>, evidence: seq<SpelledRow>)
    returns (terms: Result<BuyerTerms, EngineError>)
    ensures terms == Err(BadBaseline) <==> base.priceWei <= 0 || base.serviceWindow <= 0 || base.payoutDelay <= 0
    ensures terms ==
      if !PositiveBaseline(base) then Err(BadBaseline)
      else match Unique(evidence)
        case Err(id) => Err(ConflictingRecords(id))
        case Ok(rows) => Ok(BuyerTermsOn(profile, base, dims, rows))
  {
    if base.priceWei <= 0 || base.serviceWindow <= 0 || base.payoutDelay <= 0 {
      return Err(BadBaseline);
    }
    var unique := UniqueByEventId(evidence);
    if unique.Err? {
      return Err(ConflictingRecords(unique.error));
    }
    var rows := unique.value;
    var p := BuyerPricingFor(profile, base);
    var risk, used := Score(p, dims, rows);
    var numbers := Committed(p, dims, rows);
    var causal := MinimalCausalSet(rows, used, Committing(p, dims));
    return Ok(BuyerTerms(
      numbers.bondBps, numbers.serviceWindow,
      MaxPriceBps(profile), MinPayoutDelay(profile, base.payoutDelay),
      DisplayedRisk(risk), SortedIds(RowIds(rows)), causal));
  }

  method ProduceProviderTerms(persona: Persona, base: Baseline, dims: seq<Dimension>, evidence: seq<SpelledRow>)
    returns (terms: Result<ProviderTerms, EngineError>)
    ensures terms == Err(BadBaseline) <==> base.priceWei <= 0 || base.serviceWindow <= 0 || base.payoutDelay <= 0
    ensures terms ==
      if !PositiveBaseline(base) then Err(BadBaseline)
      else match Unique(evidence)
        case Err(id) => Err(ConflictingRecords(id))
        case Ok(rows) => Ok(ProviderTermsOn(persona, base, dims, rows))
  {
    if base.priceWei <= 0 || base.payoutDelay <= 0 || base.serviceWindow <= 0 {
      return Err(BadBaseline);
    }
    var unique := UniqueByEventId(evidence);
    if unique.Err? {
      return Err(ConflictingRecords(unique.error));
    }
    var rows := unique.value;
    var p := ProviderPricingFor(persona, base);
    var risk, used := Score(p, dims, rows);
    var numbers := Committed(p, dims, rows);
    var causal := MinimalCausalSet(rows, used, Committing(p, dims));
    return Ok(ProviderTerms(
      numbers.priceBps, numbers.payoutDelay, numbers.priceFloorBps, numbers.maxBondBps,
      MinServiceWindow(base.serviceWindow),
      DisplayedRisk(risk), SortedIds(RowIds(rows)), causal));
  }

  // ---------------------------------------------------------------------------------------
  // Where the published numbers lie, whatever the history
  // ---------------------------------------------------------------------------------------

  /** What a settlement may rely on about the buyer's half. */
  predicate BuyerInBounds(t: BuyerTerms, base: Baseline) {
    && base.providerBondBps <= t.providerBondBps <= MAX_PROVIDER_BOND_BPS
    && Min(MIN_SERVICE_WINDOW_SECONDS, base.serviceWindow) <= t.serviceWindow <= MAX_DURATION
    && BPS_DENOMINATOR <= t.maxPriceBps <= MAX_PRICE_BPS
    && 1 <= t.minPayoutDelay <= base.payoutDelay
    && 0.0 <= t.risk <= 1.0
  }

  /** ... and about the provider's. The floor never passes the ask, despite two roundings. */
  predicate ProviderInBounds(t: ProviderTerms, base: Baseline) {
    && BPS_DENOMINATOR <= t.priceFloorBps <= t.priceBps
    && 1 <= t.payoutDelay <= base.payoutDelay
    && 0 <= t.maxBondBps <= MAX_BOND_BPS
    && t.minServiceWindow == Min(MIN_SERVICE_WINDOW_SECONDS, base.serviceWindow)
    && 0.0 <= t.risk <= 1.0
  }

  lemma BuyerTermsInBounds(profile: Profile, base: Baseline, dims: seq<Dimension>, rows: seq<Row>)
    requires ProfileInDomain(profile) && BaselineInDomain(base)
    ensures BuyerInBounds(BuyerTermsOn(profile, base, dims, rows), base)
  {
    var risk := ClampRisk(RawRisk(BuyerPricingFor(profile, base), dims, rows));
    BondBounds(profile.bondSensitivityBps as real, base.providerBondBps, risk);
    ShareOfDelay(base.payoutDelay, profile.payoutDelayFloorBps);
  }

  lemma ProviderTermsInBounds(persona: Persona, base: Baseline, dims: seq<Dimension>, rows: seq<Row>)
    requires PersonaInDomain(persona) && BaselineInDomain(base)
    ensures ProviderInBounds(ProviderTermsOn(persona, base, dims, rows), base)
  {
    var risk := ClampRisk(RawRisk(ProviderPricingFor(persona, base), dims, rows));
    PriceBounds(persona.priceSensitivityBps as real, risk);
    DelayBounds(persona.delaySensitivitySeconds as real, persona.cashflowSensitivity, base.payoutDelay, risk);
    MaxBondBounds(persona.cashflowSensitivity, risk);
  }

  lemma BondBounds(sensitivity: real, baseBond: int, risk: real)
    requires 0.0 <= sensitivity && 0.0 <= risk && 0 <= baseBond <= MAX_PROVIDER_BOND_BPS
    ensures baseBond <= BondAt(sensitivity, baseBond, risk) <= MAX_PROVIDER_BOND_BPS
  {
  }

  /** Three quarters of a premium, rounded, is at most the whole premium, rounded. */
  lemma PriceBounds(sensitivity: real, risk: real)
    requires 0.0 <= sensitivity && 0.0 <= risk
    ensures BPS_DENOMINATOR <= PriceFloorAt(sensitivity, risk) <= PriceAt(sensitivity, risk)
  {
  }

  lemma DelayBounds(sensitivity: real, cashflow: real, baseDelay: int, risk: real)
    requires 0.0 <= sensitivity && 0.0 <= cashflow && 0.0 <= risk && 1 <= baseDelay <= MAX_DURATION
    ensures 1 <= DelayAt(sensitivity, cashflow, baseDelay, risk) <= baseDelay
  {
  }

  lemma MaxBondBounds(cashflow: real, risk: real)
    requires 0.0 <= cashflow <= 1.0 && 0.0 <= risk <= 1.0
    ensures 0 <= MaxBondAt(cashflow, risk) <= MAX_BOND_BPS
  {
    ScaleMonotone(0.0, risk * MAX_BOND, cashflow);
    RoundMonotone(0.0, risk * MAX_BOND * cashflow);
  }

  lemma ShareOfDelay(baseDelay: int, floorBps: int)
    requires 1 <= baseDelay && 0 <= floorBps <= BPS_DENOMINATOR
    ensures 0 <= baseDelay * floorBps / BPS_DENOMINATOR <= baseDelay
  {
  }
}
