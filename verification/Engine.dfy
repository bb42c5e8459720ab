/** Scoring receipts and turning the score into the numbers a side publishes: wrasse/engine.py. */
module Engine {
  import opened Constants
  import opened Numeric

  /** A recalled receipt as the engine reads it. `story` stands for every field but the two named ones. */
  datatype Row = Row(id: nat, kind: Outcome, story: nat)

  /** A receipt before `canonical_event_id`: the same id can be spelled in several ways. */
  datatype SpelledRow = SpelledRow(id: nat, spelling: nat, kind: Outcome, story: nat)

  datatype Dimension = Dimension(
    source: Outcome,
    negative: bool,
    severity: real,
    confidence: real,
    appliesWhen: set<Context>)

  /** What `DimensionDefinition.from_model` admits: bounded, and never pricing an outcome backwards. */
  predicate DimensionInDomain(d: Dimension) {
    && 0.0 <= d.severity <= 1.0
    && 0.0 <= d.confidence <= 1.0
    && (!d.source.Unrecognised? ==> d.negative == IsNegative(d.source))
  }

  predicate DimensionsInDomain(dims: seq<Dimension>) {
    forall i :: 0 <= i < |dims| ==> DimensionInDomain(dims[i])
  }

  /** How one side turns receipts into numbers: a task profile for a buyer, a persona for a provider. */
  datatype Pricing =
    | BuyerPricing(profile: Profile, baseBond: int, baseWindow: int)
    | ProviderPricing(persona: Persona, baseDelay: int)
  {
    /** A side prices what its counterparty did. */
    function About(): Side {
      if BuyerPricing? then Provider else Buyer
    }

    function Weight(): real {
      if BuyerPricing? then profile.riskWeight else PROVIDER_RISK_WEIGHT
    }

    function Relevance(d: Dimension): real {
      if ProviderPricing? then PROVIDER_RELEVANCE_MULTIPLIER
      else if profile.contexts * d.appliesWhen != {} then RELEVANT_MULTIPLIER
      else IRRELEVANT_MULTIPLIER
    }
  }

  predicate PricingInDomain(p: Pricing) {
    match p
    case BuyerPricing(profile, _, _) => ProfileInDomain(profile)
    case ProviderPricing(persona, _) => PersonaInDomain(persona)
  }

  // ---------------------------------------------------------------------------------------
  // The score
  // ---------------------------------------------------------------------------------------

  /** What a receipt of the dimension's own kind adds, before anyone asks whom it is about. */
  function SignedWeight(p: Pricing, d: Dimension): real {
    var magnitude := d.severity * d.confidence;
    (if d.negative then magnitude else -magnitude) * p.Relevance(d) * p.Weight()
  }

  function Contribution(p: Pricing, row: Row, d: Dimension): real {
    if p.About() !in SubjectsOf(row.kind) || row.kind != d.source then 0.0
    else SignedWeight(p, d)
  }

  /** Everything one receipt adds to the sum. */
  function RowRisk(p: Pricing, dims: seq<Dimension>, row: Row): real {
    if dims == [] then 0.0
    else RowRisk(p, dims[..|dims| - 1], row) + Contribution(p, row, dims[|dims| - 1])
  }

  function RawRisk(p: Pricing, dims: seq<Dimension>, rows: seq<Row>): real {
    if rows == [] then 0.0
    else RawRisk(p, dims, rows[..|rows| - 1]) + RowRisk(p, dims, rows[|rows| - 1])
  }

  predicate Contributes(p: Pricing, dims: seq<Dimension>, row: Row) {
    exists i :: 0 <= i < |dims| && Contribution(p, row, dims[i]) != 0.0
  }

  function ContributingIds(p: Pricing, dims: seq<Dimension>, rows: seq<Row>): set<nat> {
    set i | 0 <= i < |rows| && Contributes(p, dims, rows[i]) :: rows[i].id
  }

  method Score(p: Pricing, dims: seq<Dimension>, rows: seq<Row>) returns (risk: real, used: set<nat>)
    ensures risk == ClampRisk(RawRisk(p, dims, rows))
    ensures used == ContributingIds(p, dims, rows)
  {
    var sum := 0.0;
    used := {};
    for i := 0 to |rows|
      invariant sum == RawRisk(p, dims, rows[..i])
      invariant used == ContributingIds(p, dims, rows[..i])
    {
      ScoreStep(p, dims, rows, i);
      if p.About() in SubjectsOf(rows[i].kind) {
        var before, named := sum, used;
        for j := 0 to |dims|
          invariant sum == before + RowRisk(p, dims[..j], rows[i])
          invariant used == if Contributes(p, dims[..j], rows[i]) then named + {rows[i].id} else named
        {
          RowRiskStep(p, dims, rows[i], j);
          if rows[i].kind == dims[j].source {
            var contribution := SignedWeight(p, dims[j]);
            if contribution != 0.0 {
              sum := sum + contribution;
              used := used + {rows[i].id};
            }
          }
        }
        assert dims[..|dims|] == dims;
      } else {
        SilentRowRisk(p, dims, rows[i]);
      }
    }
    assert rows[..|rows|] == rows;
    risk := ClampRisk(sum);
  }

  lemma {:induction false} RowRiskStep(p: Pricing, dims: seq<Dimension>, row: Row, j: nat)
    requires j < |dims|
    ensures RowRisk(p, dims[..j + 1], row) == RowRisk(p, dims[..j], row) + Contribution(p, row, dims[j])
    ensures Contributes(p, dims[..j + 1], row)
        <==> Contributes(p, dims[..j], row) || Contribution(p, row, dims[j]) != 0.0
  {
    assert dims[..j + 1][..j] == dims[..j];
    ContributesStep(p, dims, row, j);
  }

  lemma {:induction false} ScoreStep(p: Pricing, dims: seq<Dimension>, rows: seq<Row>, i: nat)
    requires i < |rows|
    ensures RawRisk(p, dims, rows[..i + 1]) == RawRisk(p, dims, rows[..i]) + RowRisk(p, dims, rows[i])
    ensures ContributingIds(p, dims, rows[..i + 1])
         == ContributingIds(p, dims, rows[..i])
            + (if Contributes(p, dims, rows[i]) then {rows[i].id} else {})
  {
    assert rows[..i + 1][..i] == rows[..i];
    ContributingIdsStep(p, dims, rows, i);
  }

  lemma ContributesStep(p: Pricing, dims: seq<Dimension>, row: Row, j: nat)
    requires j < |dims|
    ensures Contributes(p, dims[..j + 1], row)
        <==> Contributes(p, dims[..j], row) || Contribution(p, row, dims[j]) != 0.0
  {
  }

  lemma ContributingIdsStep(p: Pricing, dims: seq<Dimension>, rows: seq<Row>, i: nat)
    requires i < |rows|
    ensures ContributingIds(p, dims, rows[..i + 1])
         == ContributingIds(p, dims, rows[..i])
            + (if Contributes(p, dims, rows[i]) then {rows[i].id} else {})
  {
  }

  /** A receipt that contributes to no dimension adds nothing. */
  lemma {:induction false} SilentRowRisk(p: Pricing, dims: seq<Dimension>, row: Row)
    requires !Contributes(p, dims, row)
    ensures RowRisk(p, dims, row) == 0.0
  {
    if dims != [] {
      var j := |dims| - 1;
      assert dims[..j + 1] == dims;
      ContributesStep(p, dims, row, j);
      SilentRowRisk(p, dims[..j], row);
    }
  }

  /** Every dimension of a recognised outcome points the way the contract says the outcome does. */
  lemma {:induction false} RowRiskSign(p: Pricing, dims: seq<Dimension>, row: Row)
    requires PricingInDomain(p) && DimensionsInDomain(dims)
    ensures IsNegative(row.kind) ==> RowRisk(p, dims, row) >= 0.0
    ensures !IsNegative(row.kind) ==> RowRisk(p, dims, row) <= 0.0
  {
    if dims != [] {
      var d := dims[|dims| - 1];
      assert DimensionsInDomain(dims[..|dims| - 1]);
      RowRiskSign(p, dims[..|dims| - 1], row);
      ContributionSign(p, row, d);
    }
  }

  lemma ContributionSign(p: Pricing, row: Row, d: Dimension)
    requires PricingInDomain(p) && DimensionInDomain(d)
    ensures IsNegative(row.kind) ==> Contribution(p, row, d) >= 0.0
    ensures !IsNegative(row.kind) ==> Contribution(p, row, d) <= 0.0
  {
    if p.About() in SubjectsOf(row.kind) && row.kind == d.source {
      var magnitude := d.severity * d.confidence;
      var signed := if d.negative then magnitude else -magnitude;
      SignKept(d.severity, d.confidence);
      SignKept(signed, p.Relevance(d));
      SignKept(signed * p.Relevance(d), p.Weight());
    }
  }

  lemma SignKept(x: real, factor: real)
    requires 0.0 <= factor
    ensures 0.0 <= x ==> 0.0 <= x * factor
    ensures x <= 0.0 ==> x * factor <= 0.0
  {
  }

  /**
   * A promise kept never raises risk and a promise broken never lowers it, whoever is asked
   * and whatever the rest of the history says.
   */
  lemma {:induction false} OneMoreReceipt(p: Pricing, dims: seq<Dimension>, rows: seq<Row>, row: Row)
    requires PricingInDomain(p) && DimensionsInDomain(dims)
    ensures row.kind == ReleasedByBuyer
        ==> ClampRisk(RawRisk(p, dims, rows + [row])) <= ClampRisk(RawRisk(p, dims, rows))
    ensures IsNegative(row.kind)
        ==> ClampRisk(RawRisk(p, dims, rows + [row])) >= ClampRisk(RawRisk(p, dims, rows))
  {
    assert (rows + [row])[..|rows|] == rows;
    RowRiskSign(p, dims, row);
  }

  // ---------------------------------------------------------------------------------------
  // The numbers each side publishes
  // ---------------------------------------------------------------------------------------

  /** The numbers that depend on risk: two of the buyer's, four of the provider's. */
  datatype Numbers =
    | BuyerNumbers(bondBps: int, serviceWindow: int)
    | ProviderNumbers(priceBps: int, payoutDelay: int, maxBondBps: int, priceFloorBps: int)

  function BondAt(sensitivity: real, baseBond: int, risk: real): int {
    ClampBondBps(baseBond + RoundHalfUp(risk * sensitivity))
  }

  function WindowAt(buffer: real, baseWindow: int, risk: real): int {
    ClampDuration(Max(Min(baseWindow, MIN_SERVICE_WINDOW_SECONDS), baseWindow + RoundHalfUp(risk * buffer)))
  }

  function PriceAt(sensitivity: real, risk: real): int {
    BPS_DENOMINATOR + RoundHalfUp(risk * sensitivity)
  }

  function DelayAt(sensitivity: real, cashflow: real, baseDelay: int, risk: real): int {
    ClampDuration(Max(
      Min(baseDelay, MIN_PAYOUT_DELAY_SECONDS),
      baseDelay - RoundHalfUp(risk * sensitivity * cashflow)))
  }

  function MaxBondAt(cashflow: real, risk: real): int {
    ClampBondBps(MAX_BOND_BPS - RoundHalfUp(risk * MAX_BOND * cashflow))
  }

  function PriceFloorAt(sensitivity: real, risk: real): int {
    BPS_DENOMINATOR + RoundHalfUp(risk * sensitivity * CONCESSION_NUM / CONCESSION_DEN)
  }

  function NumbersAt(p: Pricing, risk: real): Numbers {
    match p
    case BuyerPricing(profile, baseBond, baseWindow) =>
      BuyerNumbers(
        BondAt(profile.bondSensitivityBps as real, baseBond, risk),
        WindowAt(profile.windowBufferSeconds as real, baseWindow, risk))
    case ProviderPricing(persona, baseDelay) =>
      ProviderNumbers(
        PriceAt(persona.priceSensitivityBps as real, risk),
        DelayAt(persona.delaySensitivitySeconds as real, persona.cashflowSensitivity, baseDelay, risk),
        MaxBondAt(persona.cashflowSensitivity, risk),
        PriceFloorAt(persona.priceSensitivityBps as real, risk))
  }

  /** `committed(subset)`: the numbers a history gives. */
  function Committed(p: Pricing, dims: seq<Dimension>, rows: seq<Row>): Numbers {
    NumbersAt(p, ClampRisk(RawRisk(p, dims, rows)))
  }

  /** Everything a side asks for is at least as much, and everything it offers at most as much. */
  predicate NoSofter(worse: Numbers, better: Numbers) {
    match (worse, better)
    case (BuyerNumbers(b1, _), BuyerNumbers(b0, _)) => b1 >= b0
    case (ProviderNumbers(p1, d1, m1, f1), ProviderNumbers(p0, d0, m0, f0)) =>
      p1 >= p0 && d1 <= d0 && m1 <= m0 && f1 >= f0
    case _ => false
  }

  /** Every number but the service window is monotone against the party whose conduct moved it. */
  lemma NumbersMonotone(p: Pricing, low: real, high: real)
    requires PricingInDomain(p) && low <= high
    ensures NoSofter(NumbersAt(p, high), NumbersAt(p, low))
  {
    match p
    case BuyerPricing(profile, baseBond, _) =>
      BondMonotone(profile.bondSensitivityBps as real, baseBond, low, high);
    case ProviderPricing(persona, baseDelay) =>
      var price, cash := persona.priceSensitivityBps as real, persona.cashflowSensitivity;
      PriceMonotone(price, low, high);
      DelayAntitone(persona.delaySensitivitySeconds as real, cash, baseDelay, low, high);
      MaxBondAntitone(cash, low, high);
  }

  lemma BondMonotone(sensitivity: real, baseBond: int, low: real, high: real)
    requires 0.0 <= sensitivity && low <= high
    ensures BondAt(sensitivity, baseBond, low) <= BondAt(sensitivity, baseBond, high)
  {
    RoundScaleMonotone(low, high, sensitivity);
  }

  lemma PriceMonotone(sensitivity: real, low: real, high: real)
    requires 0.0 <= sensitivity && low <= high
    ensures PriceAt(sensitivity, low) <= PriceAt(sensitivity, high)
    ensures PriceFloorAt(sensitivity, low) <= PriceFloorAt(sensitivity, high)
  {
    RoundScaleMonotone(low, high, sensitivity);
    ScaleMonotone(low, high, sensitivity);
    RoundMonotone(low * sensitivity * CONCESSION_NUM / CONCESSION_DEN, high * sensitivity * CONCESSION_NUM / CONCESSION_DEN);
  }

  lemma DelayAntitone(sensitivity: real, cashflow: real, baseDelay: int, low: real, high: real)
    requires 0.0 <= sensitivity && 0.0 <= cashflow && low <= high
    ensures DelayAt(sensitivity, cashflow, baseDelay, high) <= DelayAt(sensitivity, cashflow, baseDelay, low)
  {
    ProductRound(low, high, sensitivity, cashflow);
  }

  lemma MaxBondAntitone(cashflow: real, low: real, high: real)
    requires 0.0 <= cashflow && low <= high
    ensures MaxBondAt(cashflow, high) <= MaxBondAt(cashflow, low)
  {
    ProductRound(low, high, MAX_BOND, cashflow);
  }

  lemma ProductRound(low: real, high: real, a: real, b: real)
    requires low <= high && 0.0 <= a && 0.0 <= b
    ensures RoundHalfUp(low * a * b) <= RoundHalfUp(high * a * b)
  {
    ScaleMonotone(low, high, a);
    ScaleMonotone(low * a, high * a, b);
    RoundMonotone(low * a * b, high * a * b);
  }

  /** The service window moves one way for the whole risk range, the way its profile's buffer points. */
  lemma WindowMonotone(buffer: real, baseWindow: int, low: real, high: real)
    requires low <= high
    ensures 0.0 <= buffer ==> WindowAt(buffer, baseWindow, low) <= WindowAt(buffer, baseWindow, high)
    ensures buffer <= 0.0 ==> WindowAt(buffer, baseWindow, high) <= WindowAt(buffer, baseWindow, low)
  {
    if 0.0 <= buffer {
      RoundScaleMonotone(low, high, buffer);
    }
    if buffer <= 0.0 {
      RoundScaleAntitone(low, high, buffer);
    }
  }

  /** Worsening a record by one broken promise never softens anything its counterparty publishes. */
  lemma WorseRecordIsNoSofter(p: Pricing, dims: seq<Dimension>, rows: seq<Row>, row: Row)
    requires PricingInDomain(p) && DimensionsInDomain(dims)
    ensures IsNegative(row.kind)
        ==> NoSofter(Committed(p, dims, rows + [row]), Committed(p, dims, rows))
    ensures row.kind == ReleasedByBuyer
        ==> NoSofter(Committed(p, dims, rows), Committed(p, dims, rows + [row]))
  {
    OneMoreReceipt(p, dims, rows, row);
    var before, after := ClampRisk(RawRisk(p, dims, rows)), ClampRisk(RawRisk(p, dims, rows + [row]));
    if IsNegative(row.kind) {
      NumbersMonotone(p, before, after);
    } else if row.kind == ReleasedByBuyer {
      NumbersMonotone(p, after, before);
    }
  }

  // ---------------------------------------------------------------------------------------
  // Collapsing repeated recalls
  // ---------------------------------------------------------------------------------------

  function Normalised(row: SpelledRow): Row {
    Row(row.id, row.kind, row.story)
  }

  predicate Holds(rows: seq<Row>, id: nat) {
    exists i :: 0 <= i < |rows| && rows[i].id == id
  }

  predicate DistinctIds(rows: seq<Row>) {
    forall i, j :: 0 <= i < j < |rows| ==> rows[i].id != rows[j].id
  }

  /** The first record under each id, in the order of arrival; an error names an id with two stories. */
  function Unique(evidence: seq<SpelledRow>): Result<seq<Row>, nat> {
    if evidence == [] then Ok([])
    else
      var row := Normalised(evidence[|evidence| - 1]);
      match Unique(evidence[..|evidence| - 1])
      case Err(id) => Err(id)
      case Ok(rows) =>
        if row in rows then Ok(rows)
        else if Holds(rows, row.id) then Err(row.id)
        else Ok(rows + [row])
  }

  /** `_unique_by_event_id`: the loop, the `seen` table and the refusal. */
  method UniqueByEventId(evidence: seq<SpelledRow>) returns (unique: Result<seq<Row>, nat>)
    ensures unique == Unique(evidence)
  {
    var seen: map<nat, Row> := map[];
    var rows: seq<Row> := [];
    for i := 0 to |evidence|
      invariant Unique(evidence[..i]) == Ok(rows)
      invariant Indexes(seen, rows)
    {
      assert evidence[..i + 1][..i] == evidence[..i];
      var row := Normalised(evidence[i]);
      if row.id in seen {
        if seen[row.id] != row {
          ErrorPersists(evidence, i + 1);
          return Err(row.id);
        }
      } else {
        seen := seen[row.id := row];
        rows := rows + [row];
      }
    }
    assert evidence[..|evidence|] == evidence;
    unique := Ok(rows);
  }

  ghost predicate Indexes(seen: map<nat, Row>, rows: seq<Row>) {
    && (forall id :: id in seen ==> seen[id] in rows && seen[id].id == id)
    && (forall i :: 0 <= i < |rows| ==> rows[i].id in seen && seen[rows[i].id] == rows[i])
  }

  lemma {:induction false} ErrorPersists(evidence: seq<SpelledRow>, n: nat)
    requires n <= |evidence| && Unique(evidence[..n]).Err?
    ensures Unique(evidence) == Unique(evidence[..n])
  {
    if n < |evidence| {
      var shorter := evidence[..|evidence| - 1];
      assert shorter[..n] == evidence[..n];
      ErrorPersists(shorter, n);
    } else {
      assert evidence[..n] == evidence;
    }
  }

  /** Two records of one receipt that differ in anything but its spelling. */
  ghost predicate Conflicting(evidence: seq<SpelledRow>) {
    exists i, j :: 0 <= i < j < |evidence| && evidence[i].id == evidence[j].id
                && (evidence[i].kind != evidence[j].kind || evidence[i].story != evidence[j].story)
  }

  /**
   * The collapse is refused exactly when two records share an id and tell two stories. When it
   * succeeds, every receipt is there once, nothing else is, and no spelling matters.
   */
  lemma {:induction false} UniqueIsASet(evidence: seq<SpelledRow>)
    ensures Unique(evidence).Err? <==> Conflicting(evidence)
    ensures Unique(evidence).Ok? ==>
      && DistinctIds(Unique(evidence).value)
      && forall row :: row in Unique(evidence).value
           <==> exists i :: 0 <= i < |evidence| && Normalised(evidence[i]) == row
  {
    if evidence != [] {
      var n := |evidence| - 1;
      var shorter, last := evidence[..n], evidence[n];
      UniqueIsASet(shorter);
      assert forall i :: 0 <= i < n ==> shorter[i] == evidence[i];
      if Unique(shorter).Ok? {
        var rows := Unique(shorter).value;
        HoldsMeansSeen(shorter, rows, last.id);
        if Normalised(last) in rows {
          NoConflictWith(shorter, rows, last);
        }
      }
    }
  }

  lemma HoldsMeansSeen(evidence: seq<SpelledRow>, rows: seq<Row>, id: nat)
    requires forall row :: row in rows <==> exists i :: 0 <= i < |evidence| && Normalised(evidence[i]) == row
    ensures Holds(rows, id) <==> exists i :: 0 <= i < |evidence| && evidence[i].id == id
  {
    if Holds(rows, id) {
      var k :| 0 <= k < |rows| && rows[k].id == id;
      assert rows[k] in rows;
    }
    if i :| 0 <= i < |evidence| && evidence[i].id == id {
      assert Normalised(evidence[i]) in rows;
    }
  }

  lemma NoConflictWith(evidence: seq<SpelledRow>, rows: seq<Row>, last: SpelledRow)
    requires DistinctIds(rows) && Normalised(last) in rows
    requires forall row :: row in rows <==> exists i :: 0 <= i < |evidence| && Normalised(evidence[i]) == row
    ensures forall i :: 0 <= i < |evidence| && evidence[i].id == last.id
              ==> Normalised(evidence[i]) == Normalised(last)
  {
    forall i | 0 <= i < |evidence| && evidence[i].id == last.id
      ensures Normalised(evidence[i]) == Normalised(last)
    {
      assert Normalised(evidence[i]) in rows;
    }
  }
}
