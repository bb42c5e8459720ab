/** The numbers and tables that can move a term: wrasse/constants.py. */
module Constants {

  const BPS_DENOMINATOR: int := 10_000
  const MAX_PROVIDER_BOND_BPS: int := 10_000
  const MAX_DURATION: int := 30 * 24 * 60 * 60
  const UINT64_MAX: int := 0xFFFF_FFFF_FFFF_FFFF
  const UINT256_MAX: int := 0xFFFF_FFFF_FFFF_FFFF_FFFF_FFFF_FFFF_FFFF_FFFF_FFFF_FFFF_FFFF_FFFF_FFFF_FFFF_FFFF

  /** A provider's bond ceiling when it holds nothing against the buyer. */
  const MAX_BOND_BPS: int := 5_000
  const MAX_BOND: real := 5_000.0

  const MIN_SERVICE_WINDOW_SECONDS: int := 300
  const MIN_PAYOUT_DELAY_SECONDS: int := 60

  /** The share of its premium a provider's floor keeps. */
  const CONCESSION_NUM: real := 3.0
  const CONCESSION_DEN: real := 4.0

  const RELEVANT_MULTIPLIER: real := 1.5
  const IRRELEVANT_MULTIPLIER: real := 0.5
  const PROVIDER_RELEVANCE_MULTIPLIER: real := 1.0
  const PROVIDER_RISK_WEIGHT: real := 1.0

  const MAX_PRICE_BPS: int := 0x1_0000_0000
  const MIN_SETTLED_PRICE_WEI: int := 1
  const MAX_BASE_PRICE_WEI: int := UINT256_MAX / MAX_PRICE_BPS

  /** Addresses up to spelling; zero is the zero address. */
  type Address = nat

  datatype Side = Buyer | Provider

  datatype Context = DeadlineSensitive | CostSensitive | QualitySensitive

  /** What a receipt says happened. Only the first three are ever derived from a log. */
  datatype Outcome =
    | TimeoutClaimed
    | ReleasedByBuyer
    | ClaimedAfterDelay
    | Unrecognised(name: string)

  /** Whose conduct an outcome is evidence about. */
  function SubjectsOf(outcome: Outcome): set<Side> {
    match outcome
    case TimeoutClaimed => {Provider}
    case ReleasedByBuyer => {Buyer, Provider}
    case ClaimedAfterDelay => {Buyer}
    case Unrecognised(_) => {}
  }

  /** The outcomes that count against whoever they are about. */
  predicate IsNegative(outcome: Outcome) {
    outcome == TimeoutClaimed || outcome == ClaimedAfterDelay
  }

  datatype Profile = Profile(
    contexts: set<Context>,
    riskWeight: real,
    bondSensitivityBps: int,
    windowBufferSeconds: int,
    priceCeilingPremiumBps: int,
    payoutDelayFloorBps: int)

  const URGENT := Profile({DeadlineSensitive}, 1.40, 3_000, -1_800, 2_000, 5_000)
  const BUDGET := Profile({CostSensitive}, 0.85, 1_000, 3_600, 500, 6_500)
  const SENSITIVE := Profile({QualitySensitive}, 1.20, 2_500, 1_800, 1_500, 8_000)

  /** What the three shipped profiles have in common, and all the proofs below use. */
  predicate ProfileInDomain(p: Profile) {
    && 0.0 <= p.riskWeight
    && 0 <= p.bondSensitivityBps
    && 0 <= p.priceCeilingPremiumBps <= MAX_PRICE_BPS - BPS_DENOMINATOR
    && 0 <= p.payoutDelayFloorBps <= BPS_DENOMINATOR
  }

  lemma ShippedProfilesAreInDomain()
    ensures ProfileInDomain(URGENT) && ProfileInDomain(BUDGET) && ProfileInDomain(SENSITIVE)
  {
  }

  datatype Persona = Persona(cashflowSensitivity: real, priceSensitivityBps: int, delaySensitivitySeconds: int)

  /** What `ProviderPersona.from_document` admits. */
  predicate PersonaInDomain(p: Persona) {
    0.0 <= p.cashflowSensitivity <= 1.0 && 0 <= p.priceSensitivityBps && 0 <= p.delaySensitivitySeconds
  }

  datatype Baseline = Baseline(priceWei: int, providerBondBps: int, serviceWindow: int, payoutDelay: int)

  /** `negotiation.baseline_fault` finding nothing to name. */
  predicate BaselineInDomain(b: Baseline) {
    && MIN_SETTLED_PRICE_WEI <= b.priceWei <= MAX_BASE_PRICE_WEI
    && 0 <= b.providerBondBps <= MAX_PROVIDER_BOND_BPS
    && 1 <= b.serviceWindow <= MAX_DURATION
    && 1 <= b.payoutDelay <= MAX_DURATION
  }

  /** The three ways a number can move. */
  datatype Kind = Memory | Concession | Rule

  datatype Option<+T> = None | Some(value: T)

  datatype Result<+T, +E> = Ok(value: T) | Err(error: E)
}
