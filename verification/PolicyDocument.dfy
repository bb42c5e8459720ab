/**
 * One profile of a policy document: the writer of wrasse/cli.py, the reader of
 * wrasse/policy_document.py and the contract mirror of wrasse/policy_hash.py.
 *
 * A document is a typed record here. A hash is the value it commits to, which is exactly an
 * injective hash: two commitments are equal when and only when what they cover is.
 */
module PolicyDocument {
  import opened Constants
  import opened Numeric
  import opened Engine
  import opened CausalSet
  import opened Terms
  import opened Negotiation

  datatype EvidenceHash = EvidenceHash(ids: set<nat>)

  datatype Preimage = Preimage(
    buyer: Address, provider: Address, price: int, bondBps: int, acceptBy: int,
    serviceWindow: int, payoutDelay: int, engineVersion: nat,
    buyerEvidence: EvidenceHash, providerEvidence: EvidenceHash)

  datatype PolicyHash = PolicyHash(preimage: Preimage)

  datatype DisplayedTerms = DisplayedTerms(priceWei: int, providerBondBps: int, serviceWindow: int, payoutDelay: int)

  datatype BuyerHalf = BuyerHalf(
    bondBps: int, serviceWindow: int, maxPriceBps: int, minPayoutDelay: int,
    bondWalkaway: int, windowWalkaway: int, risk: real, usedIds: seq<nat>)

  datatype ProviderHalf = ProviderHalf(
    priceBps: int, payoutDelay: int, maxBondBps: int, minServiceWindow: int,
    priceWalkaway: int, delayWalkaway: int, risk: real, usedIds: seq<nat>)

  datatype Published = PublishedDeal(moves: seq<Move>) | PublishedRefusal(failedOn: Term, gap: int)

  /** What a refused profile omits. */
  datatype Executable = Executable(terms: DisplayedTerms, preimage: Preimage, hash: PolicyHash)

  datatype Body = Body(
    baseline: Baseline, buyer: BuyerHalf, provider: ProviderHalf,
    settlement: Published, executable: Option<Executable>)

  /** One side of the document as its own check left it. */
  datatype DocumentSide = DocumentSide(address: Address, counterparty: Address, recalled: set<nat>)

  function AsPublished(s: Settlement): Published {
    match s
    case Agreed(_, moves) => PublishedDeal(moves)
    case Refused(term, gap) => PublishedRefusal(term, gap)
  }

  /** `price_wei`: one conversion, after every comparison has been made. */
  function PriceWei(basePriceWei: int, bps: int): Option<int> {
    if basePriceWei * bps > UINT256_MAX then None
    else Some(Max(MIN_SETTLED_PRICE_WEI, basePriceWei * bps / BPS_DENOMINATOR))
  }

  predicate BondIsCollectible(price: int, bondBps: int) {
    bondBps == 0 || price * bondBps >= BPS_DENOMINATOR
  }

  // ---------------------------------------------------------------------------------------
  // The writer
  // ---------------------------------------------------------------------------------------

  datatype WriterError = BaselineOutOfDomain | PriceOverflows | BondNotCollectible

  datatype Parties = Parties(buyer: Address, provider: Address, engineVersion: nat, acceptBy: int)

  function WriteProfile(parties: Parties, base: Baseline, buyer: BuyerTerms, provider: ProviderTerms)
    : Result<Body, WriterError>
  {
    if !BaselineInDomain(base) then Err(BaselineOutOfDomain)
    else
      var walkaways := Walkaways(base, buyer, provider);
      var settlement := Bargain(base, buyer, provider);
      var body := Body(
        base,
        BuyerHalf(buyer.providerBondBps, buyer.serviceWindow, buyer.maxPriceBps, buyer.minPayoutDelay,
                  walkaways[ProviderBondBps], walkaways[ServiceWindow], buyer.risk, buyer.usedIds),
        ProviderHalf(provider.priceBps, provider.payoutDelay, provider.maxBondBps, provider.minServiceWindow,
                     walkaways[PriceBps], walkaways[PayoutDelay], provider.risk, provider.usedIds),
        AsPublished(settlement), None);
      if settlement.Refused? then Ok(body)
      else
        match PriceWei(base.priceWei, Settled(settlement, PriceBps))
        case None => Err(PriceOverflows)
        case Some(price) =>
          if !BondIsCollectible(price, Settled(settlement, ProviderBondBps)) then Err(BondNotCollectible)
          else
            var preimage := Preimage(
              parties.buyer, parties.provider, price, Settled(settlement, ProviderBondBps), parties.acceptBy,
              Settled(settlement, ServiceWindow), Settled(settlement, PayoutDelay), parties.engineVersion,
              EvidenceHash(Ids(buyer.usedIds)), EvidenceHash(Ids(provider.usedIds)));
            var displayed := DisplayedTerms(
              preimage.price, preimage.bondBps, preimage.serviceWindow, preimage.payoutDelay);
            Ok(body.(executable := Some(Executable(displayed, preimage, PolicyHash(preimage)))))
  }

  // ---------------------------------------------------------------------------------------
  // The reader
  // ---------------------------------------------------------------------------------------

  datatype DocumentError =
    | UnreadableSettlement | WrongShape | BadBaselineFigure | OutOfRange | BadWalkaway
    | SettlementDoesNotFollow | TermsDoNotFollow | ZeroBond
    | UsedButNotHeld | WrongParty | WrongEngine | HashMismatch | EvidenceMismatch

  datatype ValidatedPolicy = ValidatedPolicy(
    buyer: Address, provider: Address, engineVersion: nat,
    priceWei: int, bondBps: int, serviceWindow: int, payoutDelay: int, acceptBy: int,
    buyerEvidence: EvidenceHash, providerEvidence: EvidenceHash, hash: PolicyHash)

  predicate Within(value: int, low: int, high: int) {
    low <= value <= high
  }

  /** `_check_settlement`: the settlement block read on its own. */
  predicate SettlementReadable(s: Published) {
    match s
    case PublishedRefusal(_, gap) => Within(gap, 1, UINT256_MAX)
    case PublishedDeal(moves) =>
      forall i :: 0 <= i < |moves| ==>
        && moves[i].kind in {Memory, Concession, Rule}
        && Within(moves[i].from, 0, UINT256_MAX) && Within(moves[i].to, 0, UINT256_MAX)
        && moves[i].from != moves[i].to
  }

  /** The ranges of `_check_positions`, and the two displayed risks. */
  predicate FiguresInRange(body: Body) {
    && Within(body.buyer.bondBps, 0, MAX_PROVIDER_BOND_BPS)
    && Within(body.buyer.serviceWindow, 1, MAX_DURATION)
    && Within(body.buyer.maxPriceBps, 1, MAX_PRICE_BPS)
    && Within(body.buyer.minPayoutDelay, 1, MAX_DURATION)
    && Within(body.provider.priceBps, 1, MAX_PRICE_BPS)
    && Within(body.provider.payoutDelay, 1, MAX_DURATION)
    && Within(body.provider.maxBondBps, 0, MAX_PROVIDER_BOND_BPS)
    && Within(body.provider.minServiceWindow, 1, MAX_DURATION)
    && Within(body.provider.priceWalkaway, 1, MAX_PRICE_BPS)
    && Within(body.provider.delayWalkaway, 1, MAX_DURATION)
    && Within(body.buyer.bondWalkaway, 0, MAX_PROVIDER_BOND_BPS)
    && Within(body.buyer.windowWalkaway, 1, MAX_DURATION)
    && 0.0 <= body.buyer.risk <= 1.0
    && 0.0 <= body.provider.risk <= 1.0
  }

  function PublishedProposals(body: Body): Figures {
    map[ProviderBondBps := body.buyer.bondBps, ServiceWindow := body.buyer.serviceWindow,
        PriceBps := body.provider.priceBps, PayoutDelay := body.provider.payoutDelay]
  }

  function PublishedLimits(body: Body): Figures {
    map[ProviderBondBps := body.provider.maxBondBps, ServiceWindow := body.provider.minServiceWindow,
        PriceBps := body.buyer.maxPriceBps, PayoutDelay := body.buyer.minPayoutDelay]
  }

  function PublishedWalkaways(body: Body): Figures {
    map[ProviderBondBps := body.buyer.bondWalkaway, ServiceWindow := body.buyer.windowWalkaway,
        PriceBps := body.provider.priceWalkaway, PayoutDelay := body.provider.delayWalkaway]
  }

  /** The settlement the published numbers give, whatever the settlement block says. */
  function Recomputed(body: Body): Settlement {
    SettleUpTo(PositionsOf(PublishedProposals(body), PublishedLimits(body), PublishedWalkaways(body)), |TERMS|)
  }

  /** `_check_positions`. */
  function CheckPositions(body: Body): Result<(), DocumentError> {
    if !BaselineInDomain(body.baseline) then Err(BadBaselineFigure)
    else if !FiguresInRange(body) then Err(OutOfRange)
    else if !AllFollow(body.baseline, PublishedProposals(body), PublishedLimits(body), PublishedWalkaways(body))
    then Err(BadWalkaway)
    else Ok(())
  }

  /** `_check_settlement_follows`: settle again, and require the same answer and the same terms. */
  function CheckFollows(body: Body): Result<(), DocumentError> {
    var settlement := Recomputed(body);
    if AsPublished(settlement) != body.settlement then Err(SettlementDoesNotFollow)
    else if settlement.Refused? then Ok(())
    else if body.executable.None? then Err(WrongShape)
    else
      var shown := body.executable.value.terms;
      match PriceWei(body.baseline.priceWei, Settled(settlement, PriceBps))
      case None => Err(TermsDoNotFollow)
      case Some(price) =>
        if shown != DisplayedTerms(price, Settled(settlement, ProviderBondBps),
                                   Settled(settlement, ServiceWindow), Settled(settlement, PayoutDelay))
        then Err(TermsDoNotFollow)
        else if !BondIsCollectible(price, Settled(settlement, ProviderBondBps)) then Err(ZeroBond)
        else Ok(())
  }

  function PreimageFor(v: ValidatedPolicy, acceptBy: int): Preimage {
    Preimage(v.buyer, v.provider, v.priceWei, v.bondBps, acceptBy, v.serviceWindow, v.payoutDelay,
             v.engineVersion, v.buyerEvidence, v.providerEvidence)
  }

  /** The signed half, bound to the displayed half and to the receipts each side says it used. */
  function CheckCommitment(x: Executable, body: Body, engineVersion: nat, side: DocumentSide)
    : Result<ValidatedPolicy, DocumentError>
  {
    var p := x.preimage;
    if p.buyer == 0 || p.provider == 0 || p.buyer == p.provider
       || p.buyer != side.address || p.provider != side.counterparty then Err(WrongParty)
    else if p.engineVersion != engineVersion then Err(WrongEngine)
    else if !(Within(p.price, 1, UINT256_MAX) && Within(p.bondBps, 0, MAX_PROVIDER_BOND_BPS)
              && Within(p.serviceWindow, 1, MAX_DURATION) && Within(p.payoutDelay, 1, MAX_DURATION)
              && Within(p.acceptBy, 0, UINT64_MAX)) then Err(OutOfRange)
    else
      var v := ValidatedPolicy(
        p.buyer, p.provider, engineVersion, p.price, p.bondBps, p.serviceWindow, p.payoutDelay,
        p.acceptBy, p.buyerEvidence, p.providerEvidence, x.hash);
      if PolicyHash(PreimageFor(v, p.acceptBy)) != x.hash then Err(HashMismatch)
      else if x.terms != DisplayedTerms(v.priceWei, v.bondBps, v.serviceWindow, v.payoutDelay) then Err(TermsDoNotFollow)
      else if EvidenceHash(Ids(body.buyer.usedIds)) != v.buyerEvidence
           || EvidenceHash(Ids(body.provider.usedIds)) != v.providerEvidence then Err(EvidenceMismatch)
      else Ok(v)
  }

  /** `_check_profile`: nothing to validate against for a refused profile. */
  function CheckProfile(body: Body, engineVersion: nat, buyerSide: DocumentSide, providerSide: DocumentSide)
    : Result<Option<ValidatedPolicy>, DocumentError>
  {
    if !SettlementReadable(body.settlement) then Err(UnreadableSettlement)
    else if body.settlement.PublishedDeal? != body.executable.Some? then Err(WrongShape)
    else
      match CheckPositions(body)
      case Err(e) => Err(e)
      case Ok(_) =>
        match CheckFollows(body)
        case Err(e) => Err(e)
        case Ok(_) =>
          if !(Ids(body.buyer.usedIds) <= buyerSide.recalled && Ids(body.provider.usedIds) <= providerSide.recalled)
          then Err(UsedButNotHeld)
          else
            match body.executable
            case None => Ok(None)
            case Some(x) =>
              match CheckCommitment(x, body, engineVersion, buyerSide)
              case Err(e) => Err(e)
              case Ok(v) => Ok(Some(v))
  }

  // ---------------------------------------------------------------------------------------
  // Writer and reader agree
  // ---------------------------------------------------------------------------------------

  /** What the numbers written mean again when they are read: the same settlement. */
  lemma WrittenNumbersSettleTheSame(parties: Parties, base: Baseline, buyer: BuyerTerms, provider: ProviderTerms)
    requires WriteProfile(parties, base, buyer, provider).Ok?
    ensures var body := WriteProfile(parties, base, buyer, provider).value;
      && PublishedProposals(body) == Proposals(buyer, provider)
      && PublishedLimits(body) == Limits(buyer, provider)
      && PublishedWalkaways(body) == Walkaways(base, buyer, provider)
      && Recomputed(body) == Bargain(base, buyer, provider)
      && body.baseline == base
      && body.buyer.risk == buyer.risk && body.buyer.usedIds == buyer.usedIds
      && body.provider.risk == provider.risk && body.provider.usedIds == provider.usedIds
      && AllFollow(base, PublishedProposals(body), PublishedLimits(body), PublishedWalkaways(body))
  {
    var body := WriteProfile(parties, base, buyer, provider).value;
    var walkaways := Walkaways(base, buyer, provider);
    assert PublishedWalkaways(body) == walkaways;
    forall term | term in ALL_TERMS
      ensures WalkawayFollows(term, base, Proposals(buyer, provider), walkaways)
    {
    }
  }

  /** The settled figures of a deal lie where the contract and the reader want them. */
  predicate DealInRange(s: Settlement, base: Baseline) {
    && s.Agreed? && Complete(s.terms)
    && base.providerBondBps <= Settled(s, ProviderBondBps) <= MAX_PROVIDER_BOND_BPS
    && 1 <= Settled(s, ServiceWindow) <= MAX_DURATION
    && BPS_DENOMINATOR <= Settled(s, PriceBps) <= MAX_PRICE_BPS
    && 1 <= Settled(s, PayoutDelay) <= base.payoutDelay
  }

  lemma BargainInRange(base: Baseline, buyer: BuyerTerms, provider: ProviderTerms)
    requires BaselineInDomain(base) && BuyerInBounds(buyer, base) && ProviderInBounds(provider, base)
    ensures Bargain(base, buyer, provider).Agreed? ==> DealInRange(Bargain(base, buyer, provider), base)
  {
    BargainFigures(base, buyer, provider);
  }

  lemma PriceFits(basePriceWei: int, bps: int)
    requires MIN_SETTLED_PRICE_WEI <= basePriceWei <= MAX_BASE_PRICE_WEI && 0 <= bps <= MAX_PRICE_BPS
    ensures PriceWei(basePriceWei, bps).Some?
    ensures 1 <= PriceWei(basePriceWei, bps).value
    ensures PriceWei(basePriceWei, bps).value * BPS_DENOMINATOR <= UINT256_MAX
  {
    assert basePriceWei * bps <= MAX_BASE_PRICE_WEI * MAX_PRICE_BPS <= UINT256_MAX;
  }

  /** The settlement block of a closed-form bargain is one the reader can read on its own. */
  lemma BargainReadable(base: Baseline, buyer: BuyerTerms, provider: ProviderTerms)
    requires BaselineInDomain(base) && BuyerInBounds(buyer, base) && ProviderInBounds(provider, base)
    requires provider.priceBps <= MAX_PRICE_BPS
    ensures SettlementReadable(AsPublished(Bargain(base, buyer, provider)))
  {
    BargainHasClosedForm(base, buyer, provider);
  }

  /**
   * A body the writer produces is read back, with the same terms, exactly when the provider's
   * ask fits the widest basis-point figure a document may hold. Nothing else can go wrong.
   */
  lemma WriterAndReaderAgree(
    parties: Parties, base: Baseline, buyer: BuyerTerms, provider: ProviderTerms,
    buyerSide: DocumentSide, providerSide: DocumentSide)
    requires BuyerInBounds(buyer, base) && ProviderInBounds(provider, base)
    requires WriteProfile(parties, base, buyer, provider).Ok?
    requires parties.buyer != 0 && parties.provider != 0 && parties.buyer != parties.provider
    requires 0 <= parties.acceptBy <= UINT64_MAX
    requires buyerSide.address == parties.buyer && buyerSide.counterparty == parties.provider
    requires Ids(buyer.usedIds) <= buyerSide.recalled && Ids(provider.usedIds) <= providerSide.recalled
    ensures var body := WriteProfile(parties, base, buyer, provider).value;
      var read := CheckProfile(body, parties.engineVersion, buyerSide, providerSide);
      var settlement := Bargain(base, buyer, provider);
      && (read.Ok? <==> provider.priceBps <= MAX_PRICE_BPS)
      && (read.Ok? ==> (read.value.Some? <==> settlement.Agreed?))
      && (read.Ok? && read.value.Some? ==>
           && body.executable.Some?
           && PreimageFor(read.value.value, parties.acceptBy) == body.executable.value.preimage
           && Some(read.value.value.priceWei) == PriceWei(base.priceWei, Settled(settlement, PriceBps))
           && read.value.value.bondBps == Settled(settlement, ProviderBondBps)
           && read.value.value.serviceWindow == Settled(settlement, ServiceWindow)
           && read.value.value.payoutDelay == Settled(settlement, PayoutDelay))
  {
    var body := WriteProfile(parties, base, buyer, provider).value;
    WrittenNumbersSettleTheSame(parties, base, buyer, provider);
    BargainInRange(base, buyer, provider);
    FiguresOnceWritten(parties, base, buyer, provider);
    if provider.priceBps <= MAX_PRICE_BPS {
      BargainReadable(base, buyer, provider);
      assert CheckPositions(body) == Ok(());
      assert CheckFollows(body) == Ok(());
      if body.executable.Some? {
        PriceFits(base.priceWei, Settled(Bargain(base, buyer, provider), PriceBps));
        assert CheckCommitment(body.executable.value, body, parties.engineVersion, buyerSide).Ok?;
      }
    }
  }

  lemma FiguresOnceWritten(parties: Parties, base: Baseline, buyer: BuyerTerms, provider: ProviderTerms)
    requires BuyerInBounds(buyer, base) && ProviderInBounds(provider, base)
    requires WriteProfile(parties, base, buyer, provider).Ok?
    ensures var body := WriteProfile(parties, base, buyer, provider).value;
      && body.baseline == base
      && (FiguresInRange(body) <==> provider.priceBps <= MAX_PRICE_BPS)
  {
    var walkaways := Walkaways(base, buyer, provider);
    assert walkaways[ProviderBondBps] == base.providerBondBps;
    assert walkaways[ServiceWindow] == Max(base.serviceWindow, buyer.serviceWindow);
    assert walkaways[PriceBps] == provider.priceFloorBps;
    assert walkaways[PayoutDelay] == base.payoutDelay;
  }

  function Ask(persona: Persona, risk: real): int {
    PriceAt(persona.priceSensitivityBps as real, risk)
  }

  /** A persona keeps every ask within a document, on every history, exactly up to this sensitivity. */
  lemma PersonaFitsEveryHistory(persona: Persona)
    requires PersonaInDomain(persona)
    ensures (forall risk: real :: 0.0 <= risk <= 1.0 ==> Ask(persona, risk) <= MAX_PRICE_BPS)
       <==> persona.priceSensitivityBps <= 0x1_0000_0000 - 10_000
  {
    var whole := persona.priceSensitivityBps;
    assert Ask(persona, 1.0) == BPS_DENOMINATOR + whole by {
      assert 1.0 * whole as real == whole as real;
    }
    forall risk: real | 0.0 <= risk <= 1.0
      ensures Ask(persona, risk) <= BPS_DENOMINATOR + whole
    {
      RoundShareBounds(risk, whole);
    }
  }

  /** On terms the engines produce, the writer refuses only a bond that would round to nothing. */
  lemma WriterRefusesOnlyZeroBonds(parties: Parties, base: Baseline, buyer: BuyerTerms, provider: ProviderTerms)
    requires BaselineInDomain(base) && BuyerInBounds(buyer, base) && ProviderInBounds(provider, base)
    ensures var settlement := Bargain(base, buyer, provider);
      var written := WriteProfile(parties, base, buyer, provider);
      && (written.Err? ==> written.error == BondNotCollectible)
      && (written.Err? <==>
           && settlement.Agreed? && Settled(settlement, ProviderBondBps) > 0
           && PriceWei(base.priceWei, Settled(settlement, PriceBps)).Some?
           && PriceWei(base.priceWei, Settled(settlement, PriceBps)).value * Settled(settlement, ProviderBondBps)
              < BPS_DENOMINATOR)
  {
    BargainInRange(base, buyer, provider);
    if Bargain(base, buyer, provider).Agreed? {
      PriceFits(base.priceWei, Settled(Bargain(base, buyer, provider), PriceBps));
    }
  }

  /** From the evidence to the reader, for every baseline, profile, persona and pair of histories. */
  lemma EveryQuoteReadsBack(
    parties: Parties, base: Baseline, profile: Profile, persona: Persona,
    buyerDims: seq<Dimension>, buyerRows: seq<Row>, providerDims: seq<Dimension>, providerRows: seq<Row>,
    buyerSide: DocumentSide, providerSide: DocumentSide)
    requires BaselineInDomain(base) && ProfileInDomain(profile) && PersonaInDomain(persona)
    requires persona.priceSensitivityBps <= MAX_PRICE_BPS - BPS_DENOMINATOR
    requires parties.buyer != 0 && parties.provider != 0 && parties.buyer != parties.provider
    requires 0 <= parties.acceptBy <= UINT64_MAX
    requires buyerSide == DocumentSide(parties.buyer, parties.provider, RowIds(buyerRows))
    requires providerSide == DocumentSide(parties.provider, parties.buyer, RowIds(providerRows))
    ensures var buyer := BuyerTermsOn(profile, base, buyerDims, buyerRows);
      var provider := ProviderTermsOn(persona, base, providerDims, providerRows);
      var written := WriteProfile(parties, base, buyer, provider);
      && (written.Err? ==> written.error == BondNotCollectible)
      && (written.Ok? ==> CheckProfile(written.value, parties.engineVersion, buyerSide, providerSide).Ok?)
  {
    var buyer := BuyerTermsOn(profile, base, buyerDims, buyerRows);
    var provider := ProviderTermsOn(persona, base, providerDims, providerRows);
    BuyerTermsInBounds(profile, base, buyerDims, buyerRows);
    ProviderTermsInBounds(persona, base, providerDims, providerRows);
    UsedIsHeld(BuyerPricingFor(profile, base), buyerDims, buyerRows);
    UsedIsHeld(ProviderPricingFor(persona, base), providerDims, providerRows);
    PersonaFitsEveryHistory(persona);
    assert Ask(persona, ClampRisk(RawRisk(ProviderPricingFor(persona, base), providerDims, providerRows))) == provider.priceBps;
    WriterRefusesOnlyZeroBonds(parties, base, buyer, provider);
    if WriteProfile(parties, base, buyer, provider).Ok? {
      WriterAndReaderAgree(parties, base, buyer, provider, buyerSide, providerSide);
    }
  }

  lemma UsedIsHeld(p: Pricing, dims: seq<Dimension>, rows: seq<Row>)
    ensures Ids(UsedEvidence(p, dims, rows)) <= RowIds(rows)
  {
    CausalSetTheorem(p, dims, rows);
    forall id | id in ContributingIds(p, dims, rows) ensures id in RowIds(rows) {
    }
  }

  /**
   * Whatever produced a body, one the reader accepts says what its own published numbers say:
   * its walk-aways follow their rules, its settlement is the settlement those numbers give, and
   * the terms a person reads are the terms the commitment covers.
   */
  lemma AcceptedBodySpeaksTruth(body: Body, engineVersion: nat, buyerSide: DocumentSide, providerSide: DocumentSide)
    requires CheckProfile(body, engineVersion, buyerSide, providerSide).Ok?
    ensures AllFollow(body.baseline, PublishedProposals(body), PublishedLimits(body), PublishedWalkaways(body))
    ensures body.settlement == AsPublished(Recomputed(body))
    ensures Ids(body.buyer.usedIds) <= buyerSide.recalled && Ids(body.provider.usedIds) <= providerSide.recalled
    ensures CheckProfile(body, engineVersion, buyerSide, providerSide).value.None? <==> Recomputed(body).Refused?
    ensures Recomputed(body).Refused? ==> body.executable.None?
    ensures var read := CheckProfile(body, engineVersion, buyerSide, providerSide).value;
      var s := Recomputed(body);
      read.Some? ==>
        && body.executable.Some?
        && body.executable.value.preimage == PreimageFor(read.value, read.value.acceptBy)
        && body.executable.value.hash == PolicyHash(body.executable.value.preimage)
        && Some(read.value.priceWei) == PriceWei(body.baseline.priceWei, Settled(s, PriceBps))
        && read.value.bondBps == Settled(s, ProviderBondBps)
        && read.value.serviceWindow == Settled(s, ServiceWindow)
        && read.value.payoutDelay == Settled(s, PayoutDelay)
        && body.executable.value.terms
           == DisplayedTerms(read.value.priceWei, read.value.bondBps, read.value.serviceWindow, read.value.payoutDelay)
        && read.value.buyerEvidence == EvidenceHash(Ids(body.buyer.usedIds))
        && read.value.providerEvidence == EvidenceHash(Ids(body.provider.usedIds))
        && read.value.buyer == buyerSide.address && read.value.provider == buyerSide.counterparty
        && read.value.engineVersion == engineVersion
  {
  }

  /** The figures a term may take, in the contract's own units. */
  predicate Takes(term: Term, value: int) {
    match term
    case ProviderBondBps => 0 <= value <= 10_000
    case PriceBps => 1 <= value <= 0x1_0000_0000
    case _ => 1 <= value <= 30 * 24 * 60 * 60
  }

  /** Every figure an accepted body publishes is one its term may take, and both risks are risks. */
  lemma AcceptedFiguresAreInRange(body: Body, engineVersion: nat, buyerSide: DocumentSide, providerSide: DocumentSide)
    requires CheckProfile(body, engineVersion, buyerSide, providerSide).Ok?
    ensures forall term :: term in ALL_TERMS ==>
      && Takes(term, PublishedProposals(body)[term]) && Takes(term, PublishedLimits(body)[term])
      && Takes(term, PublishedWalkaways(body)[term])
    ensures 0.0 <= body.buyer.risk <= 1.0 && 0.0 <= body.provider.risk <= 1.0
    ensures BaselineInDomain(body.baseline)
  {
  }

  /** A settlement block nobody could mean is refused before anything else is looked at. */
  lemma AnUnreadableBlockIsRefusedFirst(body: Body, engineVersion: nat, buyerSide: DocumentSide, providerSide: DocumentSide)
    ensures CheckProfile(body, engineVersion, buyerSide, providerSide) == Err(UnreadableSettlement) <==>
      match body.settlement
      case PublishedRefusal(_, gap) => gap < 1 || gap > UINT256_MAX
      case PublishedDeal(moves) => exists i :: 0 <= i < |moves| && !MoveReadable(moves[i])
  {
    if body.settlement.PublishedDeal? {
      var moves := body.settlement.moves;
      forall i | 0 <= i < |moves| ensures moves[i].kind in {Memory, Concession, Rule} {
        match moves[i].kind
        case Memory =>
        case Concession =>
        case Rule =>
      }
      if SettlementReadable(body.settlement) {
        assert forall i :: 0 <= i < |moves| ==> MoveReadable(moves[i]);
      } else {
        var i :| 0 <= i < |moves| && !(Within(moves[i].from, 0, UINT256_MAX) && Within(moves[i].to, 0, UINT256_MAX) && moves[i].from != moves[i].to);
        assert !MoveReadable(moves[i]);
      }
    }
  }

  predicate MoveReadable(move: Move) {
    0 <= move.from <= UINT256_MAX && 0 <= move.to <= UINT256_MAX && move.from != move.to
  }

  // ---------------------------------------------------------------------------------------
  // What a settled rate costs
  // ---------------------------------------------------------------------------------------

  /** This many wei is the rate applied to the baseline, rounded down, and at least one. */
  predicate Costs(basePriceWei: int, bps: int, price: int) {
    if basePriceWei * bps < 10_000 then price == 1
    else price * 10_000 <= basePriceWei * bps < (price + 1) * 10_000
  }

  lemma TheRateInWei(basePriceWei: int, bps: int)
    requires PriceWei(basePriceWei, bps).Some?
    ensures Costs(basePriceWei, bps, PriceWei(basePriceWei, bps).value)
  {
  }

  /** The neutral rate costs the baseline, and a higher rate never costs less. */
  lemma CostsFollowTheRate(basePriceWei: int, low: int, high: int, lower: int, higher: int)
    requires 1 <= basePriceWei && 0 <= low <= high && Costs(basePriceWei, low, lower) && Costs(basePriceWei, high, higher)
    ensures lower <= higher
    ensures low == 10_000 ==> lower == basePriceWei
  {
    assert basePriceWei * low <= basePriceWei * high;
  }

  /** What a written body says became of the bargain: which term had no room and by how much, bond before price, or that there is a deal. */
  lemma AWrittenBodySaysWhatHappened(parties: Parties, base: Baseline, buyer: BuyerTerms, provider: ProviderTerms)
    requires BuyerInBounds(buyer, base) && ProviderInBounds(provider, base)
    requires WriteProfile(parties, base, buyer, provider).Ok?
    ensures var body := WriteProfile(parties, base, buyer, provider).value;
      && (provider.maxBondBps < base.providerBondBps ==>
           body.settlement == PublishedRefusal(ProviderBondBps, base.providerBondBps - provider.maxBondBps))
      && (base.providerBondBps <= provider.maxBondBps && buyer.maxPriceBps < provider.priceFloorBps ==>
           body.settlement == PublishedRefusal(PriceBps, provider.priceFloorBps - buyer.maxPriceBps))
      && (body.settlement.PublishedDeal? <==> base.providerBondBps <= provider.maxBondBps && provider.priceFloorBps <= buyer.maxPriceBps)
      && (body.settlement.PublishedDeal? <==> body.executable.Some?)
      && (body.settlement.PublishedDeal? ==> body.settlement.moves == ClosedForm(base, buyer, provider).moves)
  {
    BargainHasClosedForm(base, buyer, provider);
  }

  /** What a written deal says it costs, to whoever reads it and to whoever signs it, is its settled rate of the baseline. */
  lemma AWrittenDealCostsItsRate(parties: Parties, base: Baseline, buyer: BuyerTerms, provider: ProviderTerms)
    requires BuyerInBounds(buyer, base) && ProviderInBounds(provider, base)
    requires WriteProfile(parties, base, buyer, provider).Ok?
    requires WriteProfile(parties, base, buyer, provider).value.executable.Some?
    ensures var x := WriteProfile(parties, base, buyer, provider).value.executable.value;
      && Costs(base.priceWei, Min(provider.priceBps, buyer.maxPriceBps), x.terms.priceWei)
      && x.preimage.price == x.terms.priceWei
      && x.terms.priceWei >= base.priceWei
  {
    BargainFigures(base, buyer, provider);
    var x := WriteProfile(parties, base, buyer, provider).value.executable.value;
    TheRateInWei(base.priceWei, Min(provider.priceBps, buyer.maxPriceBps));
    assert Costs(base.priceWei, 10_000, base.priceWei);
    CostsFollowTheRate(base.priceWei, 10_000, Min(provider.priceBps, buyer.maxPriceBps), base.priceWei, x.terms.priceWei);
  }

  /** So does what an accepted one says, whoever wrote it. */
  lemma AnAcceptedDealCostsItsRate(body: Body, engineVersion: nat, buyerSide: DocumentSide, providerSide: DocumentSide)
    requires CheckProfile(body, engineVersion, buyerSide, providerSide).Ok?
    requires CheckProfile(body, engineVersion, buyerSide, providerSide).value.Some?
    ensures var read := CheckProfile(body, engineVersion, buyerSide, providerSide).value.value;
      && Costs(body.baseline.priceWei, Settled(Recomputed(body), PriceBps), read.priceWei)
      && body.executable.Some?
      && body.executable.value.terms.priceWei == body.executable.value.preimage.price == read.priceWei
  {
    AcceptedBodySpeaksTruth(body, engineVersion, buyerSide, providerSide);
    TheRateInWei(body.baseline.priceWei, Settled(Recomputed(body), PriceBps));
  }

  /** A worse record never makes the same deal cheaper: the buyer the provider remembers worse pays at least as many wei. */
  lemma AWorseBuyerPaysNoFewerWei(
    parties: Parties, base: Baseline, buyer: BuyerTerms, worse: ProviderTerms, better: ProviderTerms)
    requires BuyerInBounds(buyer, base) && ProviderInBounds(worse, base) && ProviderInBounds(better, base)
    requires WorseBuyer(worse, better)
    requires WriteProfile(parties, base, buyer, worse).Ok? && WriteProfile(parties, base, buyer, better).Ok?
    requires WriteProfile(parties, base, buyer, worse).value.executable.Some?
    ensures WriteProfile(parties, base, buyer, better).value.executable.Some?
    ensures WriteProfile(parties, base, buyer, worse).value.executable.value.terms.priceWei
         >= WriteProfile(parties, base, buyer, better).value.executable.value.terms.priceWei
  {
    WorseBuyerFaresWorse(base, buyer, worse, better);
    AWrittenDealCostsItsRate(parties, base, buyer, worse);
    AWrittenDealCostsItsRate(parties, base, buyer, better);
    CostsFollowTheRate(
      base.priceWei, Min(better.priceBps, buyer.maxPriceBps), Min(worse.priceBps, buyer.maxPriceBps),
      WriteProfile(parties, base, buyer, better).value.executable.value.terms.priceWei,
      WriteProfile(parties, base, buyer, worse).value.executable.value.terms.priceWei);
  }

  // ---------------------------------------------------------------------------------------
  // What the contract would accept
  // ---------------------------------------------------------------------------------------

  datatype CreatableError =
    | BadAddresses | FieldOutOfRange | ZeroPrice | BondOverCeiling
    | AcceptByPast | AcceptByFar | DurationOutOfRange | ProductOverflows | BondRoundsToZero

  /** `validate_creatable`: every creation-time rule of the contract, in the contract's order. */
  function ValidateCreatable(p: Preimage, reference: int): Option<CreatableError> {
    if p.buyer == 0 || p.provider == 0 || p.buyer == p.provider then Some(BadAddresses)
    else if !(Within(p.price, 0, UINT256_MAX) && Within(p.bondBps, 0, UINT256_MAX)
              && Within(p.acceptBy, 0, UINT64_MAX) && Within(p.serviceWindow, 0, UINT64_MAX)
              && Within(p.payoutDelay, 0, UINT64_MAX) && Within(reference, 0, UINT64_MAX)) then Some(FieldOutOfRange)
    else if p.price == 0 then Some(ZeroPrice)
    else if p.bondBps > MAX_PROVIDER_BOND_BPS then Some(BondOverCeiling)
    else if p.acceptBy <= reference then Some(AcceptByPast)
    else if p.acceptBy - reference > MAX_DURATION then Some(AcceptByFar)
    else if p.serviceWindow == 0 || p.serviceWindow > MAX_DURATION
         || p.payoutDelay == 0 || p.payoutDelay > MAX_DURATION then Some(DurationOutOfRange)
    else if p.bondBps > 0 && p.price > UINT256_MAX / p.bondBps then Some(ProductOverflows)
    else if p.bondBps > 0 && p.price * p.bondBps / BPS_DENOMINATOR == 0 then Some(BondRoundsToZero)
    else None
  }

  /** What the contract takes: two different parties, a price, a deadline within thirty days, durations within thirty days, and a bond that is nothing or at least a wei. */
  lemma CreatableIff(p: Preimage, reference: int)
    ensures ValidateCreatable(p, reference).None? <==>
      && p.buyer != 0 && p.provider != 0 && p.buyer != p.provider
      && 1 <= p.price <= UINT256_MAX
      && 0 <= reference < p.acceptBy < 0x1_0000_0000_0000_0000 && p.acceptBy <= reference + 30 * 24 * 60 * 60
      && 1 <= p.serviceWindow <= 30 * 24 * 60 * 60 && 1 <= p.payoutDelay <= 30 * 24 * 60 * 60
      && 0 <= p.bondBps <= 10_000 && (p.bondBps > 0 ==> 10_000 <= p.price * p.bondBps <= UINT256_MAX)
  {
    if 0 < p.bondBps && 1 <= p.price {
      QuotientFits(p.price, UINT256_MAX, p.bondBps);
      assert 0 < p.price * p.bondBps;
    }
  }

  lemma QuotientFits(x: int, limit: int, divisor: int)
    requires 0 < divisor
    ensures x <= limit / divisor <==> x * divisor <= limit
  {
    var most := limit / divisor;
    if x <= most {
      assert x * divisor <= most * divisor;
    } else {
      assert (most + 1) * divisor <= x * divisor;
    }
  }

  predicate DeadlineInRange(acceptBy: int, reference: int) {
    0 <= reference < acceptBy <= UINT64_MAX && acceptBy - reference <= MAX_DURATION
  }

  /** A baseline is in domain exactly when the bare deal it describes is one the contract could take, at its own price and at the widest rate a document may hold. */
  lemma BaselineIsWhatTheContractTakes(base: Baseline, p: Preimage, reference: int)
    requires p.buyer != 0 && p.provider != 0 && p.buyer != p.provider && DeadlineInRange(p.acceptBy, reference)
    requires p.price == base.priceWei && p.bondBps == base.providerBondBps
    requires p.serviceWindow == base.serviceWindow && p.payoutDelay == base.payoutDelay
    ensures BaselineInDomain(base) <==>
      && ValidateCreatable(p, reference) in {None, Some(BondRoundsToZero)}
      && base.priceWei * 0x1_0000_0000 <= UINT256_MAX
  {
    if BaselineInDomain(base) && p.bondBps > 0 {
      ProductFits(p.price, p.bondBps);
    }
  }

  lemma ProductFits(price: int, bondBps: int)
    requires 1 <= price && price * BPS_DENOMINATOR <= UINT256_MAX && 0 < bondBps <= MAX_PROVIDER_BOND_BPS
    ensures price <= UINT256_MAX / bondBps
  {
  }

  /** The contract rejects an agreed deal for its deadline or for a bond that rounds to nothing, and for no other reason. */
  lemma AgreedTermsAreCreatable(base: Baseline, settlement: Settlement, p: Preimage, reference: int)
    requires BaselineInDomain(base) && DealInRange(settlement, base)
    requires PriceWei(base.priceWei, Settled(settlement, PriceBps)) == Some(p.price)
    requires p.bondBps == Settled(settlement, ProviderBondBps)
    requires p.serviceWindow == Settled(settlement, ServiceWindow) && p.payoutDelay == Settled(settlement, PayoutDelay)
    requires p.buyer != 0 && p.provider != 0 && p.buyer != p.provider
    ensures ValidateCreatable(p, reference).None?
       <==> DeadlineInRange(p.acceptBy, reference) && BondIsCollectible(p.price, p.bondBps)
    ensures DeadlineInRange(p.acceptBy, reference) && !BondIsCollectible(p.price, p.bondBps)
        ==> ValidateCreatable(p, reference) == Some(BondRoundsToZero)
  {
    PriceFits(base.priceWei, Settled(settlement, PriceBps));
    if p.bondBps > 0 {
      ProductFits(p.price, p.bondBps);
    }
  }

  /** Everything the writer marks executable is creatable until its deadline, and a bond is never sold for nothing. */
  lemma WrittenDealIsCreatable(
    parties: Parties, base: Baseline, buyer: BuyerTerms, provider: ProviderTerms, reference: int)
    requires BuyerInBounds(buyer, base) && ProviderInBounds(provider, base)
    requires WriteProfile(parties, base, buyer, provider).Ok?
    requires WriteProfile(parties, base, buyer, provider).value.executable.Some?
    requires parties.buyer != 0 && parties.provider != 0 && parties.buyer != parties.provider
    ensures var p := WriteProfile(parties, base, buyer, provider).value.executable.value.preimage;
      && (ValidateCreatable(p, reference).None? <==> DeadlineInRange(parties.acceptBy, reference))
      && (p.bondBps > 0 ==> p.price * p.bondBps / BPS_DENOMINATOR > 0)
      && (base.providerBondBps > 0 ==> p.bondBps > 0)
  {
    BargainInRange(base, buyer, provider);
    var p := WriteProfile(parties, base, buyer, provider).value.executable.value.preimage;
    AgreedTermsAreCreatable(base, Bargain(base, buyer, provider), p, reference);
  }

  /** A settled rate is one of the two published for it, so it fits whatever a document may hold. */
  lemma SettledRateFits(body: Body)
    requires FiguresInRange(body) && Complete(PublishedProposals(body)) && Complete(PublishedLimits(body)) && Complete(PublishedWalkaways(body))
    requires Recomputed(body).Agreed?
    ensures 1 <= Settled(Recomputed(body), PriceBps) <= MAX_PRICE_BPS
  {
    UnrollSettlement(PositionsOf(PublishedProposals(body), PublishedLimits(body), PublishedWalkaways(body)));
  }

  /** Whoever wrote it, a deal the reader accepts is creatable exactly while its deadline is in range: no other rule of the contract can refuse it. */
  lemma AnAcceptedDealIsCreatable(
    body: Body, engineVersion: nat, buyerSide: DocumentSide, providerSide: DocumentSide, reference: int)
    requires CheckProfile(body, engineVersion, buyerSide, providerSide).Ok?
    requires CheckProfile(body, engineVersion, buyerSide, providerSide).value.Some?
    ensures body.executable.Some?
    ensures ValidateCreatable(body.executable.value.preimage, reference).None?
       <==> DeadlineInRange(body.executable.value.preimage.acceptBy, reference)
  {
    var p := body.executable.value.preimage;
    SettledRateFits(body);
    PriceFits(body.baseline.priceWei, Settled(Recomputed(body), PriceBps));
    if p.bondBps > 0 {
      ProductFits(p.price, p.bondBps);
    }
  }

  datatype MarginError = NegativeMargin | NegativeLag | TooClose

  /** `require_inclusion_margin`: a lagging node's distance from the tip is spent out of the margin. */
  function RequireInclusionMargin(p: Preimage, chainTimestamp: int, lag: int, margin: int): Option<MarginError> {
    if margin < 0 then Some(NegativeMargin)
    else if lag < 0 then Some(NegativeLag)
    else if p.acceptBy <= chainTimestamp + margin + lag then Some(TooClose)
    else None
  }

  /**
   * What the margin buys. A deal the contract would accept at the observed time passes exactly
   * when neither the margin nor the lag is negative and the contract would still accept it the
   * whole of both later, and then it accepts it at every moment in between.
   */
  lemma TheMarginIsCreatableLater(p: Preimage, chainTimestamp: int, lag: int, margin: int)
    requires ValidateCreatable(p, chainTimestamp).None?
    ensures RequireInclusionMargin(p, chainTimestamp, lag, margin).None?
       <==> 0 <= margin && 0 <= lag && ValidateCreatable(p, chainTimestamp + margin + lag).None?
    ensures RequireInclusionMargin(p, chainTimestamp, lag, margin).None? ==>
      forall t :: chainTimestamp <= t <= chainTimestamp + margin + lag ==> ValidateCreatable(p, t).None?
  {
  }
}
