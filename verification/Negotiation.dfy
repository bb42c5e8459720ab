/** Resolving two openings into one deal, or saying that no deal exists: wrasse/negotiation.py. */
module Negotiation {
  import opened Constants
  import opened Numeric
  import opened Engine
  import opened Terms

  datatype Term = ProviderBondBps | ServiceWindow | PriceBps | PayoutDelay

  /** The order terms are settled in, which decides which one a refusal names. */
  const TERMS: seq<Term> := [ProviderBondBps, ServiceWindow, PriceBps, PayoutDelay]

  const ALL_TERMS: set<Term> := {ProviderBondBps, ServiceWindow, PriceBps, PayoutDelay}

  type Figures = map<Term, int>

  datatype Shape = Ceiling | Floor

  function ShapeOf(term: Term): Shape {
    if term == ProviderBondBps || term == PriceBps then Ceiling else Floor
  }

  function LimitKind(term: Term): Kind {
    if term == ProviderBondBps then Memory else Rule
  }

  /** One side's published numbers for one term. */
  datatype Position = Position(proposal: int, limit: int, walkaway: int, limitKind: Kind)

  /** `because` names the limit that bound by its term and its value. */
  datatype Move = Move(term: Term, from: int, to: int, kind: Kind, limit: int)

  datatype Settlement = Agreed(terms: Figures, moves: seq<Move>) | Refused(failedOn: Term, gap: int)

  datatype PositionError =
    | NoPosition(missing: set<Term>)
    | NoWalkaway(term: Term)
    | WalkawayDisagrees(term: Term, published: int, derived: int)

  // ---------------------------------------------------------------------------------------
  // The settlement rule
  // ---------------------------------------------------------------------------------------

  /** `_settle_one`: the settled value, or the distance between the two sides. */
  function SettleOne(term: Term, position: Position): Result<(int, Option<Move>), int> {
    var Position(proposal, limit, walkaway, limitKind) := position;
    var admits := if ShapeOf(term) == Ceiling then proposal <= limit else proposal >= limit;
    if admits then Ok((proposal, None))
    else if ShapeOf(term) == Ceiling && limit < walkaway then Err(walkaway - limit)
    else if ShapeOf(term) == Floor && limit > walkaway then Err(limit - walkaway)
    else
      var kind := if limitKind == Memory then Concession else Rule;
      Ok((limit, Some(Move(term, proposal, limit, kind, limit))))
  }

  function Listed(move: Option<Move>): seq<Move> {
    match move
    case None => []
    case Some(m) => [m]
  }

  /** The settlement of the first `n` terms. */
  function SettleUpTo(positions: map<Term, Position>, n: nat): Settlement
    requires n <= |TERMS| && ALL_TERMS <= positions.Keys
  {
    if n == 0 then Agreed(map[], [])
    else
      match SettleUpTo(positions, n - 1)
      case Refused(term, gap) => Refused(term, gap)
      case Agreed(terms, moves) =>
        match SettleOne(TERMS[n - 1], positions[TERMS[n - 1]])
        case Err(gap) => Refused(TERMS[n - 1], gap)
        case Ok((value, move)) => Agreed(terms[TERMS[n - 1] := value], moves + Listed(move))
  }

  /** `settle`: all four terms, or the first that has no overlap. */
  method Settle(positions: map<Term, Position>) returns (settlement: Result<Settlement, PositionError>)
    ensures settlement ==
      if ALL_TERMS <= positions.Keys then Ok(SettleUpTo(positions, |TERMS|))
      else Err(NoPosition(ALL_TERMS - positions.Keys))
  {
    var missing := ALL_TERMS - positions.Keys;
    if missing != {} {
      assert exists term :: term in missing;
      return Err(NoPosition(missing));
    }
    assert forall term :: term in ALL_TERMS ==> term !in missing;
    var settled: Figures := map[];
    var moves: seq<Move> := [];
    for i := 0 to |TERMS|
      invariant SettleUpTo(positions, i) == Agreed(settled, moves)
    {
      match SettleOne(TERMS[i], positions[TERMS[i]]) {
        case Err(gap) =>
          RefusalStands(positions, i + 1);
          return Ok(Refused(TERMS[i], gap));
        case Ok(outcome) =>
          settled := settled[TERMS[i] := outcome.0];
          if outcome.1.Some? {
            moves := moves + [outcome.1.value];
          }
      }
    }
    return Ok(Agreed(settled, moves));
  }

  lemma {:induction false} RefusalStands(positions: map<Term, Position>, n: nat)
    requires n <= |TERMS| && ALL_TERMS <= positions.Keys
    requires SettleUpTo(positions, n).Refused?
    ensures SettleUpTo(positions, |TERMS|) == SettleUpTo(positions, n)
    decreases |TERMS| - n
  {
    if n < |TERMS| {
      RefusalStands(positions, n + 1);
    }
  }

  /** A term agrees on a value both sides published room for, and refuses by a positive distance. */
  lemma SettleOneIsFair(term: Term, position: Position)
    requires if ShapeOf(term) == Ceiling then position.walkaway <= position.proposal
             else position.proposal <= position.walkaway
    ensures match SettleOne(term, position)
      case Err(gap) => gap > 0 &&
        (if ShapeOf(term) == Ceiling then position.limit + gap == position.walkaway
         else position.limit == position.walkaway + gap)
      case Ok((value, move)) =>
        && (if ShapeOf(term) == Ceiling then position.walkaway <= value <= position.limit
            else position.limit <= value <= position.walkaway)
        && (move.None? <==> value == position.proposal)
        && (move.Some? ==> move.value.from == position.proposal && move.value.to == value == position.limit)
  {
  }

  // ---------------------------------------------------------------------------------------
  // The positions
  // ---------------------------------------------------------------------------------------

  function BaselineFigure(base: Baseline, term: Term): int {
    match term
    case ProviderBondBps => base.providerBondBps
    case ServiceWindow => base.serviceWindow
    case PriceBps => BPS_DENOMINATOR
    case PayoutDelay => base.payoutDelay
  }

  /** `derived_walkaway`: price is published rather than derived. */
  function DerivedWalkaway(term: Term, base: Baseline, proposal: int): Option<int> {
    match term
    case ProviderBondBps => Some(Min(base.providerBondBps, proposal))
    case PriceBps => None
    case _ => Some(Max(BaselineFigure(base, term), proposal))
  }

  predicate Complete(figures: Figures) {
    ALL_TERMS <= figures.Keys
  }

  function Walkaway(term: Term, base: Baseline, proposals: Figures, publishedPrice: int): int
    requires term in proposals
  {
    match DerivedWalkaway(term, base, proposals[term])
    case Some(derived) => derived
    case None => publishedPrice
  }

  /** `walkaways_for`: derived where there is a rule, as published where there is none, refused where neither is given. */
  method WalkawaysFor(base: Baseline, proposals: Figures, published: Figures) returns (resolved: Result<Figures, PositionError>)
    requires Complete(proposals)
    ensures resolved ==
      if PriceBps in published
      then Ok(map term | term in ALL_TERMS :: Walkaway(term, base, proposals, published[PriceBps]))
      else Err(NoWalkaway(PriceBps))
  {
    var figures: Figures := map[];
    ghost var price := if PriceBps in published then published[PriceBps] else 0;
    for i := 0 to |TERMS|
      invariant figures.Keys == set k | 0 <= k < i :: TERMS[k]
      invariant PriceBps in published || i <= 2
      invariant forall k :: 0 <= k < i ==> figures[TERMS[k]] == Walkaway(TERMS[k], base, proposals, price)
    {
      var derived := DerivedWalkaway(TERMS[i], base, proposals[TERMS[i]]);
      if derived.None? && TERMS[i] !in published {
        return Err(NoWalkaway(TERMS[i]));
      }
      figures := figures[TERMS[i] := if derived.None? then published[TERMS[i]] else derived.value];
    }
    EveryTermIsListed();
    forall term | term in ALL_TERMS ensures figures[term] == Walkaway(term, base, proposals, price) {
      var k :| 0 <= k < |TERMS| && TERMS[k] == term;
    }
    assert PriceBps in published;
    assert figures.Keys == ALL_TERMS;
    assert figures == map term | term in ALL_TERMS :: Walkaway(term, base, proposals, published[PriceBps]);
    return Ok(figures);
  }

  lemma EveryTermIsListed()
    ensures ALL_TERMS == set k | 0 <= k < |TERMS| :: TERMS[k]
  {
    assert TERMS[0] == ProviderBondBps && TERMS[1] == ServiceWindow;
    assert TERMS[2] == PriceBps && TERMS[3] == PayoutDelay;
  }

  predicate WalkawayFollows(term: Term, base: Baseline, proposals: Figures, walkaways: Figures)
    requires term in proposals && term in walkaways
  {
    var derived := DerivedWalkaway(term, base, proposals[term]);
    derived.None? || derived.value == walkaways[term]
  }

  function PositionOf(term: Term, proposals: Figures, limits: Figures, walkaways: Figures): Position
    requires term in proposals && term in limits && term in walkaways
  {
    Position(proposals[term], limits[term], walkaways[term], LimitKind(term))
  }

  function PositionsOf(proposals: Figures, limits: Figures, walkaways: Figures): map<Term, Position>
    requires Complete(proposals) && Complete(limits) && Complete(walkaways)
  {
    map term | term in ALL_TERMS :: PositionOf(term, proposals, limits, walkaways)
  }

  /** What is wrong with one term's published walk-away, if anything is. */
  function FaultOf(term: Term, base: Baseline, proposals: Figures, walkaways: Figures): Option<PositionError>
    requires term in proposals
  {
    if term !in walkaways then Some(NoWalkaway(term))
    else if WalkawayFollows(term, base, proposals, walkaways) then None
    else Some(WalkawayDisagrees(term, walkaways[term], DerivedWalkaway(term, base, proposals[term]).value))
  }

  /** The error names the first term at fault in settlement order. */
  ghost predicate FirstFault(base: Baseline, proposals: Figures, walkaways: Figures, error: PositionError)
    requires Complete(proposals)
  {
    exists k :: 0 <= k < |TERMS| && FaultOf(TERMS[k], base, proposals, walkaways) == Some(error)
      && forall j :: 0 <= j < k ==> FaultOf(TERMS[j], base, proposals, walkaways).None?
  }

  /** What the error says is so: the walk-away is missing, or it is this figure where the rule gives that one. */
  predicate Blames(base: Baseline, proposals: Figures, walkaways: Figures, error: PositionError)
    requires Complete(proposals)
  {
    match error
    case NoPosition(_) => false
    case NoWalkaway(term) => term !in walkaways
    case WalkawayDisagrees(term, published, derived) =>
      && term in walkaways && walkaways[term] == published && published != derived
      && term in proposals && DerivedWalkaway(term, base, proposals[term]) == Some(derived)
  }

  /**
   * The derived walk-away is the operator's baseline, unless the proposal already gives more than
   * that. So on any published numbers whose walk-aways follow their rules, each such term settles
   * on a value inside both sides' room, or refuses by the distance between them.
   */
  lemma DerivedPositionsAreFair(term: Term, base: Baseline, proposals: Figures, limits: Figures, walkaways: Figures)
    requires AllFollow(base, proposals, limits, walkaways) && term != PriceBps
    ensures walkaways[term] == proposals[term] || walkaways[term] == BaselineFigure(base, term)
    ensures if ShapeOf(term) == Ceiling then walkaways[term] <= proposals[term] && walkaways[term] <= BaselineFigure(base, term)
            else walkaways[term] >= proposals[term] && walkaways[term] >= BaselineFigure(base, term)
    ensures match SettleOne(term, PositionsOf(proposals, limits, walkaways)[term])
      case Err(gap) => gap > 0 && (if ShapeOf(term) == Ceiling then limits[term] + gap == walkaways[term] else limits[term] == walkaways[term] + gap)
      case Ok((value, _)) =>
        if ShapeOf(term) == Ceiling then walkaways[term] <= value <= limits[term] else limits[term] <= value <= walkaways[term]
  {
    assert WalkawayFollows(term, base, proposals, walkaways);
    SettleOneIsFair(term, PositionsOf(proposals, limits, walkaways)[term]);
  }

  predicate AllFollow(base: Baseline, proposals: Figures, limits: Figures, walkaways: Figures) {
    && Complete(proposals) && Complete(limits) && Complete(walkaways)
    && forall term :: term in ALL_TERMS ==> WalkawayFollows(term, base, proposals, walkaways)
  }

  /**
   * `build_positions`: the four positions from published numbers alone, or a refusal of a
   * walk-away its own rule does not give.
   */
  method BuildPositions(base: Baseline, proposals: Figures, limits: Figures, walkaways: Figures)
    returns (built: Result<map<Term, Position>, PositionError>)
    ensures built.Ok? <==> AllFollow(base, proposals, limits, walkaways)
    ensures built.Ok? ==> built.value == PositionsOf(proposals, limits, walkaways)
    ensures !(Complete(proposals) && Complete(limits)) ==>
      built == Err(NoPosition((ALL_TERMS - proposals.Keys) + (ALL_TERMS - limits.Keys)))
    ensures Complete(proposals) && Complete(limits) && built.Err? ==>
      FirstFault(base, proposals, walkaways, built.error) && Blames(base, proposals, walkaways, built.error)
  {
    if !Complete(proposals) || !Complete(limits) {
      return Err(NoPosition((ALL_TERMS - proposals.Keys) + (ALL_TERMS - limits.Keys)));
    }
    var positions: map<Term, Position> := map[];
    for i := 0 to |TERMS|
      invariant positions.Keys == set k | 0 <= k < i :: TERMS[k]
      invariant forall k :: 0 <= k < i ==>
        && TERMS[k] in walkaways
        && WalkawayFollows(TERMS[k], base, proposals, walkaways)
        && positions[TERMS[k]] == PositionOf(TERMS[k], proposals, limits, walkaways)
    {
      var term := TERMS[i];
      assert forall k :: 0 <= k < i ==> FaultOf(TERMS[k], base, proposals, walkaways).None?;
      if term !in walkaways {
        assert FaultOf(TERMS[i], base, proposals, walkaways) == Some(NoWalkaway(term));
        return Err(NoWalkaway(term));
      }
      var expected := DerivedWalkaway(term, base, proposals[term]);
      if expected.Some? && walkaways[term] != expected.value {
        assert FaultOf(TERMS[i], base, proposals, walkaways) == Some(WalkawayDisagrees(term, walkaways[term], expected.value));
        return Err(WalkawayDisagrees(term, walkaways[term], expected.value));
      }
      positions := positions[term := PositionOf(term, proposals, limits, walkaways)];
    }
    EveryTermIsListed();
    return Ok(positions);
  }

  // ---------------------------------------------------------------------------------------
  // The deal two memories make
  // ---------------------------------------------------------------------------------------

  function Proposals(buyer: BuyerTerms, provider: ProviderTerms): Figures {
    map[ProviderBondBps := buyer.providerBondBps, ServiceWindow := buyer.serviceWindow,
        PriceBps := provider.priceBps, PayoutDelay := provider.payoutDelay]
  }

  function Limits(buyer: BuyerTerms, provider: ProviderTerms): Figures {
    map[ProviderBondBps := provider.maxBondBps, ServiceWindow := provider.minServiceWindow,
        PriceBps := buyer.maxPriceBps, PayoutDelay := buyer.minPayoutDelay]
  }

  function Walkaways(base: Baseline, buyer: BuyerTerms, provider: ProviderTerms): Figures {
    map term | term in ALL_TERMS :: Walkaway(term, base, Proposals(buyer, provider), provider.priceFloorBps)
  }

  /** `_positions_for`: what the writer hands to the settlement. */
  function Positions(base: Baseline, buyer: BuyerTerms, provider: ProviderTerms): map<Term, Position> {
    PositionsOf(Proposals(buyer, provider), Limits(buyer, provider), Walkaways(base, buyer, provider))
  }

  function Bargain(base: Baseline, buyer: BuyerTerms, provider: ProviderTerms): Settlement {
    SettleUpTo(Positions(base, buyer, provider), |TERMS|)
  }

  /** The settlement in one expression: two ways to refuse, and otherwise the nearer of two numbers. */
  function ClosedForm(base: Baseline, buyer: BuyerTerms, provider: ProviderTerms): Settlement {
    if provider.maxBondBps < base.providerBondBps then
      Refused(ProviderBondBps, base.providerBondBps - provider.maxBondBps)
    else if buyer.maxPriceBps < provider.priceFloorBps then
      Refused(PriceBps, provider.priceFloorBps - buyer.maxPriceBps)
    else
      Agreed(
        map[ProviderBondBps := Min(buyer.providerBondBps, provider.maxBondBps),
            ServiceWindow := buyer.serviceWindow,
            PriceBps := Min(provider.priceBps, buyer.maxPriceBps),
            PayoutDelay := Max(provider.payoutDelay, buyer.minPayoutDelay)],
        (if buyer.providerBondBps > provider.maxBondBps
         then [Move(ProviderBondBps, buyer.providerBondBps, provider.maxBondBps, Concession, provider.maxBondBps)] else [])
        + (if provider.priceBps > buyer.maxPriceBps
           then [Move(PriceBps, provider.priceBps, buyer.maxPriceBps, Rule, buyer.maxPriceBps)] else [])
        + (if provider.payoutDelay < buyer.minPayoutDelay
           then [Move(PayoutDelay, provider.payoutDelay, buyer.minPayoutDelay, Rule, buyer.minPayoutDelay)] else []))
  }

  lemma {:induction false} UnrollSettlement(positions: map<Term, Position>)
    requires ALL_TERMS <= positions.Keys
    ensures var bond := SettleOne(ProviderBondBps, positions[ProviderBondBps]);
      var window := SettleOne(ServiceWindow, positions[ServiceWindow]);
      var price := SettleOne(PriceBps, positions[PriceBps]);
      var delay := SettleOne(PayoutDelay, positions[PayoutDelay]);
      SettleUpTo(positions, |TERMS|) ==
        if bond.Err? then Refused(ProviderBondBps, bond.error)
        else if window.Err? then Refused(ServiceWindow, window.error)
        else if price.Err? then Refused(PriceBps, price.error)
        else if delay.Err? then Refused(PayoutDelay, delay.error)
        else Agreed(
          map[ProviderBondBps := bond.value.0, ServiceWindow := window.value.0,
              PriceBps := price.value.0, PayoutDelay := delay.value.0],
          Listed(bond.value.1) + Listed(window.value.1) + Listed(price.value.1) + Listed(delay.value.1))
  {
    assert SettleUpTo(positions, 0) == Agreed(map[], []);
    var one := SettleUpTo(positions, 1);
    var two := SettleUpTo(positions, 2);
    var three := SettleUpTo(positions, 3);
    var bond := SettleOne(ProviderBondBps, positions[ProviderBondBps]);
    assert one == if bond.Err? then Refused(ProviderBondBps, bond.error)
                  else Agreed(map[ProviderBondBps := bond.value.0], Listed(bond.value.1)) by {
      if bond.Ok? {
        assert [] + Listed(bond.value.1) == Listed(bond.value.1);
      }
    }
  }

  /**
   * Whatever the two histories and the persona, the window and the payout delay never refuse
   * and the window limit never binds; the bond refuses exactly below the operator's rate and
   * the price exactly below the provider's floor, each by that exact distance.
   */
  lemma BargainHasClosedForm(base: Baseline, buyer: BuyerTerms, provider: ProviderTerms)
    requires BaselineInDomain(base) && BuyerInBounds(buyer, base) && ProviderInBounds(provider, base)
    ensures Bargain(base, buyer, provider) == ClosedForm(base, buyer, provider)
  {
    var positions := Positions(base, buyer, provider);
    UnrollSettlement(positions);
    var bond, window := positions[ProviderBondBps], positions[ServiceWindow];
    var price, delay := positions[PriceBps], positions[PayoutDelay];
    assert bond == Position(buyer.providerBondBps, provider.maxBondBps, base.providerBondBps, Memory);
    assert SettleOne(ServiceWindow, window) == Ok((buyer.serviceWindow, None));
    assert price == Position(provider.priceBps, buyer.maxPriceBps, provider.priceFloorBps, Rule);
    assert delay == Position(provider.payoutDelay, buyer.minPayoutDelay, base.payoutDelay, Rule);
    assert SettleOne(PayoutDelay, delay).Ok?;
    if ClosedForm(base, buyer, provider).Agreed? {
      var b := Listed(SettleOne(ProviderBondBps, bond).value.1);
      assert b + [] == b;
    }
  }

  /** The same, from the evidence: for every in-domain baseline, profile, persona and pair of histories. */
  lemma EveryQuoteHasClosedForm(
    base: Baseline, profile: Profile, persona: Persona,
    buyerDims: seq<Dimension>, buyerRows: seq<Row>, providerDims: seq<Dimension>, providerRows: seq<Row>)
    requires BaselineInDomain(base) && ProfileInDomain(profile) && PersonaInDomain(persona)
    ensures var buyer := BuyerTermsOn(profile, base, buyerDims, buyerRows);
      var provider := ProviderTermsOn(persona, base, providerDims, providerRows);
      Bargain(base, buyer, provider) == ClosedForm(base, buyer, provider)
  {
    BuyerTermsInBounds(profile, base, buyerDims, buyerRows);
    ProviderTermsInBounds(persona, base, providerDims, providerRows);
    BargainHasClosedForm(base, BuyerTermsOn(profile, base, buyerDims, buyerRows),
                         ProviderTermsOn(persona, base, providerDims, providerRows));
  }

  // ---------------------------------------------------------------------------------------
  // Who a worse record hurts
  // ---------------------------------------------------------------------------------------

  /** The provider's memory of the buyer got worse. */
  predicate WorseBuyer(worse: ProviderTerms, better: ProviderTerms) {
    && worse.priceBps >= better.priceBps && worse.payoutDelay <= better.payoutDelay
    && worse.maxBondBps <= better.maxBondBps && worse.priceFloorBps >= better.priceFloorBps
    && worse.minServiceWindow == better.minServiceWindow
  }

  /** The figure a settlement gives a term, where there is one. */
  function Settled(s: Settlement, term: Term): int {
    if s.Agreed? && term in s.terms then s.terms[term] else 0
  }

  /** A worse buyer pays no less, is protected no better, waits no longer to pay, and is refused no less often. */
  lemma WorseBuyerFaresWorse(base: Baseline, buyer: BuyerTerms, worse: ProviderTerms, better: ProviderTerms)
    requires BaselineInDomain(base) && BuyerInBounds(buyer, base)
    requires ProviderInBounds(worse, base) && ProviderInBounds(better, base) && WorseBuyer(worse, better)
    ensures var after, before := Bargain(base, buyer, worse), Bargain(base, buyer, better);
      && (before.Refused? ==> after.Refused?)
      && (after.Agreed? ==>
           && Complete(after.terms) && Complete(before.terms)
           && Settled(after, PriceBps) >= Settled(before, PriceBps)
           && Settled(after, ProviderBondBps) <= Settled(before, ProviderBondBps)
           && Settled(after, PayoutDelay) <= Settled(before, PayoutDelay)
           && Settled(after, ServiceWindow) == Settled(before, ServiceWindow))
  {
    BargainFigures(base, buyer, worse);
    BargainFigures(base, buyer, better);
  }

  lemma BargainFigures(base: Baseline, buyer: BuyerTerms, provider: ProviderTerms)
    requires BaselineInDomain(base) && BuyerInBounds(buyer, base) && ProviderInBounds(provider, base)
    ensures var s := Bargain(base, buyer, provider);
      && (s.Agreed? <==> base.providerBondBps <= provider.maxBondBps && provider.priceFloorBps <= buyer.maxPriceBps)
      && (s.Agreed? ==>
           && Complete(s.terms)
           && Settled(s, ProviderBondBps) == Min(buyer.providerBondBps, provider.maxBondBps)
           && Settled(s, ServiceWindow) == buyer.serviceWindow
           && Settled(s, PriceBps) == Min(provider.priceBps, buyer.maxPriceBps)
           && Settled(s, PayoutDelay) == Max(provider.payoutDelay, buyer.minPayoutDelay))
  {
    BargainHasClosedForm(base, buyer, provider);
  }

  /** The buyer's memory of the provider got worse. Its service window may move either way. */
  predicate WorseProvider(worse: BuyerTerms, better: BuyerTerms) {
    && worse.providerBondBps >= better.providerBondBps
    && worse.maxPriceBps == better.maxPriceBps && worse.minPayoutDelay == better.minPayoutDelay
  }

  /** A worse provider posts no smaller a bond; its price, its delay and whether there is a deal at all stay put. */
  lemma WorseProviderFaresWorse(base: Baseline, provider: ProviderTerms, worse: BuyerTerms, better: BuyerTerms)
    requires BaselineInDomain(base) && ProviderInBounds(provider, base)
    requires BuyerInBounds(worse, base) && BuyerInBounds(better, base) && WorseProvider(worse, better)
    ensures var after, before := Bargain(base, worse, provider), Bargain(base, better, provider);
      && (after.Agreed? <==> before.Agreed?)
      && (after.Refused? ==> after == before)
      && (after.Agreed? ==>
           && Complete(after.terms) && Complete(before.terms)
           && Settled(after, PriceBps) == Settled(before, PriceBps)
           && Settled(after, PayoutDelay) == Settled(before, PayoutDelay)
           && Settled(after, ProviderBondBps) >= Settled(before, ProviderBondBps))
  {
    BargainHasClosedForm(base, worse, provider);
    BargainHasClosedForm(base, better, provider);
    BargainFigures(base, worse, provider);
    BargainFigures(base, better, provider);
  }

  /** One more broken promise by the buyer, remembered by the provider, is a worse record in the sense above. */
  lemma BrokenPromiseByBuyer(
    base: Baseline, persona: Persona, dims: seq<Dimension>, rows: seq<Row>, row: Row)
    requires BaselineInDomain(base) && PersonaInDomain(persona) && DimensionsInDomain(dims)
    ensures IsNegative(row.kind) ==> WorseBuyer(
      ProviderTermsOn(persona, base, dims, rows + [row]), ProviderTermsOn(persona, base, dims, rows))
    ensures row.kind == ReleasedByBuyer ==> WorseBuyer(
      ProviderTermsOn(persona, base, dims, rows), ProviderTermsOn(persona, base, dims, rows + [row]))
  {
    WorseRecordIsNoSofter(ProviderPricingFor(persona, base), dims, rows, row);
  }

  lemma BrokenPromiseByProvider(
    base: Baseline, profile: Profile, dims: seq<Dimension>, rows: seq<Row>, row: Row)
    requires BaselineInDomain(base) && ProfileInDomain(profile) && DimensionsInDomain(dims)
    ensures IsNegative(row.kind) ==> WorseProvider(
      BuyerTermsOn(profile, base, dims, rows + [row]), BuyerTermsOn(profile, base, dims, rows))
    ensures row.kind == ReleasedByBuyer ==> WorseProvider(
      BuyerTermsOn(profile, base, dims, rows), BuyerTermsOn(profile, base, dims, rows + [row]))
  {
    WorseRecordIsNoSofter(BuyerPricingFor(profile, base), dims, rows, row);
  }
}
