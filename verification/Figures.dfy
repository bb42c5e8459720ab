/**
 * What the published numbers come to: how far each one moves, when two memories have a deal at
 * all, and what a side says it read. wrasse/engine.py, with the settlement of wrasse/negotiation.py.
 */
module Figures {
  import opened Constants
  import opened Numeric
  import opened Engine
  import opened CausalSet
  import opened Terms
  import opened Negotiation
  import Weighing

  /** The whole number nearest to an exact figure, kept between two others. */
  predicate Nearest(value: int, exact: real, low: int, high: int) {
    if exact <= low as real then value == low
    else if exact >= high as real then value == high
    else -0.5 <= value as real - exact <= 0.5
  }

  /** Rounding the move and then keeping within bounds gives the nearest whole number there is between them. */
  lemma MovedIsNearest(base: int, move: real, low: int, high: int)
    requires low <= high
    ensures Nearest(Max(low, Min(high, base + RoundHalfUp(move))), base as real + move, low, high)
  {
    RoundIsNearest(move);
  }

  lemma FallIsNearest(base: int, move: real, low: int, high: int)
    requires low <= high
    ensures Nearest(Max(low, Min(high, base - RoundHalfUp(move))), base as real - move, low, high)
  {
    RoundIsNearest(move);
  }

  lemma BondIsNearest(sensitivity: real, baseBond: int, risk: real)
    ensures Nearest(BondAt(sensitivity, baseBond, risk), baseBond as real + risk * sensitivity, 0, 10_000)
  {
    MovedIsNearest(baseBond, risk * sensitivity, 0, 10_000);
  }

  lemma WindowIsNearest(buffer: real, baseWindow: int, risk: real)
    requires 1 <= baseWindow <= MAX_DURATION
    ensures Nearest(WindowAt(buffer, baseWindow, risk), baseWindow as real + risk * buffer, Min(baseWindow, 300), 30 * 24 * 60 * 60)
  {
    MovedIsNearest(baseWindow, risk * buffer, Min(baseWindow, 300), 30 * 24 * 60 * 60);
  }

  lemma DelayIsNearest(sensitivity: real, cashflow: real, baseDelay: int, risk: real)
    requires 1 <= baseDelay <= MAX_DURATION
    ensures Nearest(DelayAt(sensitivity, cashflow, baseDelay, risk), baseDelay as real - risk * sensitivity * cashflow,
                    Min(baseDelay, 60), 30 * 24 * 60 * 60)
  {
    FallIsNearest(baseDelay, risk * sensitivity * cashflow, Min(baseDelay, 60), 30 * 24 * 60 * 60);
  }

  lemma MaxBondIsNearest(cashflow: real, risk: real)
    ensures Nearest(MaxBondAt(cashflow, risk), 5_000.0 - risk * 5_000.0 * cashflow, 0, 10_000)
  {
    FallIsNearest(5_000, risk * 5_000.0 * cashflow, 0, 10_000);
  }

  lemma PriceIsNearest(sensitivity: real, risk: real)
    ensures -0.5 <= PriceAt(sensitivity, risk) as real - (10_000.0 + risk * sensitivity) <= 0.5
    ensures -0.5 <= PriceFloorAt(sensitivity, risk) as real - (10_000.0 + 0.75 * (risk * sensitivity)) <= 0.5
  {
    RoundIsNearest(risk * sensitivity);
    RoundIsNearest(risk * sensitivity * CONCESSION_NUM / CONCESSION_DEN);
  }

  /** A buyer's bond rises from the operator's rate by its sensitivity times the risk, and its window moves by its buffer times the risk. */
  lemma BuyerFigures(profile: Profile, base: Baseline, risk: real)
    requires ProfileInDomain(profile) && BaselineInDomain(base) && 0.0 <= risk <= 1.0
    ensures var n := NumbersAt(BuyerPricingFor(profile, base), risk);
      && n.BuyerNumbers?
      && Nearest(n.bondBps, base.providerBondBps as real + risk * profile.bondSensitivityBps as real, 0, 10_000)
      && Nearest(n.serviceWindow, base.serviceWindow as real + risk * profile.windowBufferSeconds as real,
                 Min(base.serviceWindow, 300), 30 * 24 * 60 * 60)
  {
    BondIsNearest(profile.bondSensitivityBps as real, base.providerBondBps, risk);
    WindowIsNearest(profile.windowBufferSeconds as real, base.serviceWindow, risk);
  }

  /**
   * A provider's ask rises by its price sensitivity times the risk, its floor by three quarters of
   * that; its delay and the bond it will post fall by the risk times its sensitivity to cash.
   */
  lemma ProviderFigures(persona: Persona, base: Baseline, risk: real)
    requires PersonaInDomain(persona) && BaselineInDomain(base) && 0.0 <= risk <= 1.0
    ensures var n := NumbersAt(ProviderPricingFor(persona, base), risk);
      var premium := risk * persona.priceSensitivityBps as real;
      && n.ProviderNumbers?
      && -0.5 <= n.priceBps as real - (10_000.0 + premium) <= 0.5
      && -0.5 <= n.priceFloorBps as real - (10_000.0 + 0.75 * premium) <= 0.5
      && Nearest(n.payoutDelay, base.payoutDelay as real - risk * persona.delaySensitivitySeconds as real * persona.cashflowSensitivity,
                 Min(base.payoutDelay, 60), 30 * 24 * 60 * 60)
      && Nearest(n.maxBondBps, 5_000.0 - risk * 5_000.0 * persona.cashflowSensitivity, 0, 10_000)
  {
    PriceIsNearest(persona.priceSensitivityBps as real, risk);
    DelayIsNearest(persona.delaySensitivitySeconds as real, persona.cashflowSensitivity, base.payoutDelay, risk);
    MaxBondIsNearest(persona.cashflowSensitivity, risk);
  }

  // ---------------------------------------------------------------------------------------
  // What a side publishes
  // ---------------------------------------------------------------------------------------

  /** The shares that carry no risk: the ceiling is the baseline and the profile's premium, and the least delay is the profile's share of it, rounded down, and at least a second. */
  lemma BuyerLimits(profile: Profile, base: Baseline, dims: seq<Dimension>, rows: seq<Row>)
    requires ProfileInDomain(profile) && BaselineInDomain(base)
    ensures var t := BuyerTermsOn(profile, base, dims, rows); var share := base.payoutDelay * profile.payoutDelayFloorBps;
      && t.maxPriceBps == 10_000 + profile.priceCeilingPremiumBps
      && (share >= 10_000 ==> t.minPayoutDelay * 10_000 <= share < (t.minPayoutDelay + 1) * 10_000)
      && (share < 10_000 ==> t.minPayoutDelay == 1)
  {
    ShareOfDelay(base.payoutDelay, profile.payoutDelayFloorBps);
  }

  /** The risk shown is the risk to the nearest ten-thousandth. */
  lemma ShownToFourPlaces(risk: real)
    requires 0.0 <= risk <= 1.0
    ensures -0.00005 <= DisplayedRisk(risk) - risk <= 0.00005
    ensures (DisplayedRisk(risk) * 10_000.0).Floor as real == DisplayedRisk(risk) * 10_000.0
  {
    RoundIsNearest(risk * 10_000 as real);
    assert DisplayedRisk(risk) * 10_000.0 == RoundHalfUp(risk * 10_000 as real) as real;
  }

  /** Each side shows the risk it priced with. */
  lemma {:induction false} RiskIsShown(profile: Profile, persona: Persona, base: Baseline, dims: seq<Dimension>, rows: seq<Row>)
    ensures var risk := ClampRisk(RawRisk(BuyerPricingFor(profile, base), dims, rows));
      -0.00005 <= BuyerTermsOn(profile, base, dims, rows).risk - risk <= 0.00005
    ensures var risk := ClampRisk(RawRisk(ProviderPricingFor(persona, base), dims, rows));
      -0.00005 <= ProviderTermsOn(persona, base, dims, rows).risk - risk <= 0.00005
  {
    ShownToFourPlaces(ClampRisk(RawRisk(BuyerPricingFor(profile, base), dims, rows)));
    ShownToFourPlaces(ClampRisk(RawRisk(ProviderPricingFor(persona, base), dims, rows)));
  }

  /** Each side names every receipt it read, once and in order, however often and however spelled each was recalled, and uses none it did not read. */
  lemma {:induction false} RecalledIsWhatWasRead(
    profile: Profile, persona: Persona, base: Baseline, dims: seq<Dimension>, evidence: seq<SpelledRow>)
    requires Unique(evidence).Ok?
    ensures var buyer := BuyerTermsOn(profile, base, dims, Unique(evidence).value);
      && Increasing(buyer.recalledIds) && Ids(buyer.recalledIds) == IdsRead(evidence) && Ids(buyer.usedIds) <= IdsRead(evidence)
    ensures var provider := ProviderTermsOn(persona, base, dims, Unique(evidence).value);
      && Increasing(provider.recalledIds) && Ids(provider.recalledIds) == IdsRead(evidence) && Ids(provider.usedIds) <= IdsRead(evidence)
  {
    var rows := Unique(evidence).value;
    UniqueIds(evidence, rows);
    CausalSetTheorem(BuyerPricingFor(profile, base), dims, rows);
    CausalSetTheorem(ProviderPricingFor(persona, base), dims, rows);
    assert ContributingIds(BuyerPricingFor(profile, base), dims, rows) <= RowIds(rows);
    assert ContributingIds(ProviderPricingFor(persona, base), dims, rows) <= RowIds(rows);
  }

  function IdsRead(evidence: seq<SpelledRow>): set<nat> {
    set i | 0 <= i < |evidence| :: evidence[i].id
  }

  lemma {:induction false} UniqueIds(evidence: seq<SpelledRow>, rows: seq<Row>)
    requires Unique(evidence) == Ok(rows)
    ensures RowIds(rows) == IdsRead(evidence)
  {
    UniqueIsASet(evidence);
    forall i | 0 <= i < |evidence| ensures evidence[i].id in RowIds(rows) {
      assert Normalised(evidence[i]) in rows;
    }
    forall j | 0 <= j < |rows| ensures rows[j].id in IdsRead(evidence) {
      assert rows[j] in rows;
    }
  }

  /** The bond the provider will still post covers the operator's rate, and three quarters of the premium it asks fits the premium the buyer's profile allows. */
  predicate HasRoom(profile: Profile, persona: Persona, base: Baseline, risk: real) {
    && base.providerBondBps <= 5_000 - RoundHalfUp(risk * 5_000.0 * persona.cashflowSensitivity)
    && RoundHalfUp(risk * persona.priceSensitivityBps as real * 3.0 / 4.0) <= profile.priceCeilingPremiumBps
  }

  /**
   * When two memories have a deal at all: exactly when the provider's risk leaves room for one.
   * The buyer's memory of the provider has no say.
   */
  lemma {:induction false} ADealExistsIff(
    base: Baseline, profile: Profile, persona: Persona,
    buyerDims: seq<Dimension>, buyerRows: seq<Row>, providerDims: seq<Dimension>, providerRows: seq<Row>)
    requires BaselineInDomain(base) && ProfileInDomain(profile) && PersonaInDomain(persona)
    ensures var buyer := BuyerTermsOn(profile, base, buyerDims, buyerRows);
      var provider := ProviderTermsOn(persona, base, providerDims, providerRows);
      Bargain(base, buyer, provider).Agreed? <==>
        HasRoom(profile, persona, base, ClampRisk(RawRisk(ProviderPricingFor(persona, base), providerDims, providerRows)))
  {
    var buyer := BuyerTermsOn(profile, base, buyerDims, buyerRows);
    var provider := ProviderTermsOn(persona, base, providerDims, providerRows);
    BuyerTermsInBounds(profile, base, buyerDims, buyerRows);
    ProviderTermsInBounds(persona, base, providerDims, providerRows);
    BargainFigures(base, buyer, provider);
    RoomIff(profile, persona, base, ClampRisk(RawRisk(ProviderPricingFor(persona, base), providerDims, providerRows)));
  }

  lemma RoomIff(profile: Profile, persona: Persona, base: Baseline, risk: real)
    requires PersonaInDomain(persona) && 0.0 <= risk <= 1.0
    ensures HasRoom(profile, persona, base, risk) <==>
      && base.providerBondBps <= MaxBondAt(persona.cashflowSensitivity, risk)
      && PriceFloorAt(persona.priceSensitivityBps as real, risk) <= MaxPriceBps(profile)
  {
    MaxBondUnclamped(persona.cashflowSensitivity, risk);
  }

  lemma MaxBondUnclamped(cashflow: real, risk: real)
    requires 0.0 <= cashflow <= 1.0 && 0.0 <= risk <= 1.0
    ensures MaxBondAt(cashflow, risk) == 5_000 - RoundHalfUp(risk * 5_000.0 * cashflow)
  {
    var most := risk * 5_000.0;
    var share := most * cashflow;
    ScaleMonotone(0.0, most, cashflow);
    ScaleMonotone(0.0, cashflow, most);
    ScaleMonotone(cashflow, 1.0, most);
    assert 0.0 <= share <= 5_000.0;
    RoundMonotone(0.0, share);
    RoundMonotone(share, 5_000.0);
  }

  // ---------------------------------------------------------------------------------------
  // The shipped profiles
  // ---------------------------------------------------------------------------------------

  /** What a profile makes of a wholly broken promise that touches its task: the risk before the clamp, and then the numbers at full risk on a baseline nothing clamps. */
  predicate Reaches(profile: Profile, context: Context, worth: real, bondRise: int, windowMove: int, ceiling: int, delayShare: int) {
    && (forall c: Context :: Weighing.Worth(BuyerPricing(profile, 0, 7_200), WhollyBroken(c), Row(0, TimeoutClaimed, 0))
                          == if c == context then worth else worth / 3.0)
    && NumbersAt(BuyerPricing(profile, 1_000, 7_200), 1.0) == BuyerNumbers(1_000 + bondRise, 7_200 + windowMove)
    && MaxPriceBps(profile) == ceiling
    && MinPayoutDelay(profile, 100) == delayShare
  }

  function WhollyBroken(context: Context): Dimension {
    Dimension(TimeoutClaimed, true, 1.0, 1.0, {context})
  }

  lemma WorthOfABreach(profile: Profile, c: Context)
    ensures Weighing.Worth(BuyerPricing(profile, 0, 7_200), WhollyBroken(c), Row(0, TimeoutClaimed, 0))
         == (if c in profile.contexts then 1.5 else 0.5) * profile.riskWeight
  {
    Weighing.OneOfEach(BuyerPricing(profile, 0, 7_200), WhollyBroken(c), Row(0, TimeoutClaimed, 0));
    assert c in profile.contexts <==> profile.contexts * {c} != {} by {
      if profile.contexts * {c} != {} {
        var x :| x in profile.contexts * {c};
      }
      assert c in profile.contexts ==> c in profile.contexts * {c};
    }
  }

  lemma WorthOfBreaches(profile: Profile, context: Context)
    requires profile.contexts == {context}
    ensures forall c: Context :: Weighing.Worth(BuyerPricing(profile, 0, 7_200), WhollyBroken(c), Row(0, TimeoutClaimed, 0))
                              == if c == context then 1.5 * profile.riskWeight else 1.5 * profile.riskWeight / 3.0
  {
    forall c: Context
      ensures Weighing.Worth(BuyerPricing(profile, 0, 7_200), WhollyBroken(c), Row(0, TimeoutClaimed, 0))
           == if c == context then 1.5 * profile.riskWeight else 1.5 * profile.riskWeight / 3.0
    {
      WorthOfABreach(profile, c);
    }
  }

  /** The three shipped profiles, told apart by what one broken promise does to each. */
  lemma ShippedProfilesReach()
    ensures Reaches(URGENT, DeadlineSensitive, 2.1, 3_000, -1_800, 12_000, 50)
    ensures Reaches(BUDGET, CostSensitive, 1.275, 1_000, 3_600, 10_500, 65)
    ensures Reaches(SENSITIVE, QualitySensitive, 1.8, 2_500, 1_800, 11_500, 80)
  {
    WorthOfBreaches(URGENT, DeadlineSensitive);
    WorthOfBreaches(BUDGET, CostSensitive);
    WorthOfBreaches(SENSITIVE, QualitySensitive);
  }
}
