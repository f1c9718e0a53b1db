/** Sizing a candidate's plan, its guardrails, and the preview against what creating the plan does. */
module CandidatePlan {
  import opened Numbers
  import opened Records
  import opened Rounding
  import opened Wrappers
  import opened Ledger
  import opened LedgerSafety
  import LedgerService
  import opened PortfolioRisk
  import opened Totals

  /** A candidate with what its setup and the latest facts say about it. `armedTrigger` is
      the trigger price of an armed Strat confirmation, `planProfile` the exit plan's profile,
      trimmed and not blank. */
  datatype Candidate = Candidate(
    id: string,
    symbol: string,
    entryTrigger: Option<real>,
    initialStop: Option<real>,
    armedTrigger: Option<real>,
    planTrigger: Option<real>,
    planStop: Option<real>,
    strategyName: Option<string>,
    planProfile: Option<string>,
    validationStatus: Option<string>,
    volRank: Option<real>,
    lotteryRisk: Option<string>)

  datatype Request = Request(entryPrice: Option<real>, initialStop: Option<real>, quantity: Option<real>)

  /** What the request schema admits. */
  predicate ValidRequest(r: Request) {
    && (r.entryPrice.Some? ==> r.entryPrice.value > 0.0)
    && (r.initialStop.Some? ==> r.initialStop.value > 0.0)
    && (r.quantity.Some? ==> r.quantity.value > 0.0)
  }

  /** `_position_exit_profile`: the exit plan's profile, else the default of the strategy. */
  function ExitProfileOf(c: Candidate): Option<string> {
    if c.planProfile.Some? then c.planProfile
    else if c.strategyName == Some("etf_rotation_us_etf") then Some("etf_rotation_trend")
    else if c.strategyName == Some("oneil_core_us_etf") then Some("momentum_leader")
    else None
  }

  function EntryOf(c: Candidate, r: Request): Option<real> {
    var trigger := if c.armedTrigger.Some? then c.armedTrigger else c.entryTrigger;
    Or(Or(r.entryPrice, trigger), c.planTrigger)
  }

  function StopOf(c: Candidate, r: Request): Option<real> {
    Or(Or(r.initialStop, c.initialStop), c.planStop)
  }

  // ----- sizing

  function VolatilityMultiplier(volRank: Option<real>): (m: real)
    ensures 0.5 <= m <= 1.0
  {
    if volRank.None? then 1.0
    else if volRank.value > 0.8 then 0.5
    else if volRank.value >= 0.6 then 0.75
    else 1.0
  }

  function MaxRiskAmount(t: Settings): real {
    Round6(Times(t.accountEquity, t.maxRiskPerTradePct))
  }

  function Ratio(x: real, y: real): real
    requires y != 0.0
  {
    x / y
  }

  function BaseQuantity(maxRisk: real, risk: Option<real>): Option<int> {
    if risk.Some? && risk.value > 0.0 then Some(Ratio(maxRisk, risk.value).Floor) else None
  }

  /** The suggested quantity: the base quantity scaled down in a volatile market. */
  function AdjustedQuantity(base: Option<int>, multiplier: real): Option<int> {
    if base.Some? then Some(Times(base.value as real, multiplier).Floor) else None
  }

  function PositiveQuantity(suggested: Option<int>): Option<real> {
    if suggested.Some? && suggested.value > 0 then Some(suggested.value as real) else None
  }

  // ----- guardrails

  datatype Sizing = Sizing(
    entryPrice: Option<real>,
    initialStop: Option<real>,
    riskPerUnit: Option<real>,
    riskDistancePct: Option<real>,
    maxRisk: real,
    multiplier: real,
    base: Option<int>,
    suggested: Option<int>,
    planned: Option<real>,
    plannedRisk: Option<real>)

  function SizingOf(c: Candidate, r: Request, t: Settings): Sizing {
    var entry, stop := EntryOf(c, r), StopOf(c, r);
    var risk := RiskPerUnit(entry, stop);
    var multiplier := VolatilityMultiplier(c.volRank);
    var base := BaseQuantity(MaxRiskAmount(t), risk);
    var suggested := AdjustedQuantity(base, multiplier);
    var planned := if r.quantity.Some? then r.quantity else PositiveQuantity(suggested);
    Sizing(
      entry, stop, risk,
      if risk.Some? && entry.Some? && entry.value > 0.0 then Some(Round6(Ratio(risk.value, entry.value))) else None,
      MaxRiskAmount(t), multiplier, base, suggested, planned, RiskAmount(entry, stop, planned))
  }

  function When(condition: bool, level: Level, code: string): seq<Notice> {
    if condition then [Notice(level, code)] else []
  }

  function Larger(a: nat, b: nat): nat {
    if a >= b then a else b
  }

  predicate Oversized(z: Sizing) {
    z.multiplier < 1.0 && z.planned.Some? && z.suggested.Some? && z.planned.value > z.suggested.value as real
  }

  function LevelGuardrails(z: Sizing, t: Settings): seq<Notice> {
    When(z.entryPrice.None?, Block, "missing_entry")
    + When(z.initialStop.None?, Block, "missing_stop")
    + When(z.entryPrice.Some? && z.initialStop.Some? && z.initialStop.value >= z.entryPrice.value,
           Block, "stop_not_below_entry")
    + When(z.riskDistancePct.Some? && z.riskDistancePct.value > t.maxRiskDistancePct, Warning, "risk_distance_wide")
  }

  function ExposureGuardrails(activeCount: nat, planned: Summary, t: Settings): seq<Notice> {
    When(Larger(activeCount, planned.activeCount) >= t.maxOpenPositions, Warning, "max_open_positions_reached")
    + When(planned.totalRiskPct > t.maxTotalRiskPct, Block, "portfolio_risk_budget_exceeded")
  }

  function SizeGuardrails(c: Candidate, z: Sizing, t: Settings): seq<Notice> {
    When(c.validationStatus == Some("shadow_only") && t.shadowOnlyRequiresPaper, Info, "shadow_only_paper_only")
    + When(z.suggested.Some? && z.suggested.value <= 0, Warning, "no_suggested_quantity")
    + When(c.lotteryRisk == Some("medium") || c.lotteryRisk == Some("high"), Warning, "max20d_lottery_risk_warning")
    + When(Oversized(z), Block, "quantity_exceeds_volatility_adjusted_size")
  }

  function Guardrails(c: Candidate, z: Sizing, activeCount: nat, planned: Summary, t: Settings): seq<Notice> {
    LevelGuardrails(z, t) + ExposureGuardrails(activeCount, planned, t) + SizeGuardrails(c, z, t)
  }

  predicate Blocked(notices: seq<Notice>) {
    exists i :: 0 <= i < |notices| && notices[i].level == Block
  }

  method AppendLevelGuardrails(z: Sizing, t: Settings) returns (guardrails: seq<Notice>)
    ensures guardrails == LevelGuardrails(z, t)
  {
    guardrails := [];
    if z.entryPrice.None? {
      guardrails := guardrails + [Notice(Block, "missing_entry")];
    }
    if z.initialStop.None? {
      guardrails := guardrails + [Notice(Block, "missing_stop")];
    }
    if z.entryPrice.Some? && z.initialStop.Some? && z.initialStop.value >= z.entryPrice.value {
      guardrails := guardrails + [Notice(Block, "stop_not_below_entry")];
    }
    if z.riskDistancePct.Some? && z.riskDistancePct.value > t.maxRiskDistancePct {
      guardrails := guardrails + [Notice(Warning, "risk_distance_wide")];
    }
  }

  method AppendExposureGuardrails(before: seq<Notice>, activeCount: nat, planned: Summary, t: Settings)
    returns (guardrails: seq<Notice>)
    ensures guardrails == before + ExposureGuardrails(activeCount, planned, t)
  {
    guardrails := before;
    if Larger(activeCount, planned.activeCount) >= t.maxOpenPositions {
      guardrails := guardrails + [Notice(Warning, "max_open_positions_reached")];
    }
    if planned.totalRiskPct > t.maxTotalRiskPct {
      guardrails := guardrails + [Notice(Block, "portfolio_risk_budget_exceeded")];
    }
  }

  method AppendSizeGuardrails(before: seq<Notice>, c: Candidate, z: Sizing, t: Settings)
    returns (guardrails: seq<Notice>)
    ensures guardrails == before + SizeGuardrails(c, z, t)
  {
    hide Oversized;
    guardrails := before;
    if c.validationStatus == Some("shadow_only") && t.shadowOnlyRequiresPaper {
      guardrails := guardrails + [Notice(Info, "shadow_only_paper_only")];
    }
    if z.suggested.Some? && z.suggested.value <= 0 {
      guardrails := guardrails + [Notice(Warning, "no_suggested_quantity")];
    }
    if c.lotteryRisk == Some("medium") || c.lotteryRisk == Some("high") {
      guardrails := guardrails + [Notice(Warning, "max20d_lottery_risk_warning")];
    }
    if Oversized(z) {
      guardrails := guardrails + [Notice(Block, "quantity_exceeds_volatility_adjusted_size")];
    }
  }

  method CandidatePlanGuardrails(c: Candidate, z: Sizing, activeCount: nat, planned: Summary, t: Settings)
    returns (guardrails: seq<Notice>)
    ensures guardrails == Guardrails(c, z, activeCount, planned, t)
  {
    hide LevelGuardrails;
    hide ExposureGuardrails;
    hide SizeGuardrails;
    guardrails := AppendLevelGuardrails(z, t);
    guardrails := AppendExposureGuardrails(guardrails, activeCount, planned, t);
    guardrails := AppendSizeGuardrails(guardrails, c, z, t);
  }

  // ----- the preview

  datatype Preview = Preview(sizing: Sizing, before: Summary, planned: Summary, guardrails: seq<Notice>)

  function PreviewItem(c: Candidate, z: Sizing, t: Settings): Item
    requires t.accountEquity > 0.0
  {
    MakeItem(c.symbol, Planned, z.entryPrice, z.initialStop, z.planned, t)
  }

  /** The live items, an existing plan's replaced by the previewed one. */
  function PlannedItems(positions: map<PositionId, Position>, c: Candidate, z: Sizing, t: Settings)
    : map<PositionId, Item>
    requires t.accountEquity > 0.0
  {
    Items(positions, t)[PlanOf(c.id) := PreviewItem(c, z, t)]
  }

  ghost function PreviewOf(positions: map<PositionId, Position>, c: Candidate, r: Request, t: Settings): Preview
    requires t.accountEquity > 0.0
  {
    var z := SizingOf(c, r, t);
    var before := Summarized(Items(positions, t), t);
    var planned := Summarized(PlannedItems(positions, c, z, t), t);
    Preview(z, before, planned, Guardrails(c, z, before.activeCount, planned, t))
  }

  method PreviewCandidatePlan(positions: map<PositionId, Position>, c: Candidate, r: Request, t: Settings)
    returns (preview: Preview)
    requires t.accountEquity > 0.0
    ensures preview == PreviewOf(positions, c, r, t)
  {
    hide Summarized;
    hide Guardrails;
    hide SizingOf;
    var z := SizingOf(c, r, t);
    var before, _ := Summarize(Items(positions, t), t);
    var planned, _ := Summarize(PlannedItems(positions, c, z, t), t);
    var guardrails := CandidatePlanGuardrails(c, z, before.activeCount, planned, t);
    preview := Preview(z, before, planned, guardrails);
  }

  /** What the plan endpoint asks of the ledger. */
  ghost function PlanRequestOf(positions: map<PositionId, Position>, c: Candidate, r: Request, t: Settings): PlanRequest
    requires t.accountEquity > 0.0
  {
    var preview := PreviewOf(positions, c, r, t);
    PlanRequest(
      c.id, c.symbol, EntryOf(c, r), StopOf(c, r),
      Or(r.quantity, PositiveQuantity(preview.sizing.suggested)), ExitProfileOf(c), Blocked(preview.guardrails))
  }

  ghost function CreatePlan(s: Books, c: Candidate, r: Request, t: Settings): Result<Books, Error>
    requires t.accountEquity > 0.0
  {
    CreateCandidatePlan(s, PlanRequestOf(s.positions, c, r, t))
  }

  /** `create_candidate_plan` on the ledger: the preview decides whether the plan is blocked. */
  method PlanCandidate(ledger: LedgerService.TradeLedger, c: Candidate, r: Request, t: Settings)
    returns (error: Option<Error>)
    requires t.accountEquity > 0.0 && ledger.Valid()
    modifies ledger`positions, ledger`history
    ensures ledger.Valid()
    ensures match CreatePlan(old(ledger.View()), c, r, t)
            case Success(s) => error == None && ledger.View() == s
            case Failure(e) => error == Some(e) && ledger.View() == old(ledger.View())
  {
    hide PreviewOf;
    hide Blocked;
    hide CreateCandidatePlan;
    hide EntryOf;
    hide StopOf;
    hide ExitProfileOf;
    var preview := PreviewCandidatePlan(ledger.positions, c, r, t);
    error := ledger.AddCandidatePlan(PlanRequest(
      c.id, c.symbol, EntryOf(c, r), StopOf(c, r),
      Or(r.quantity, PositiveQuantity(preview.sizing.suggested)), ExitProfileOf(c), Blocked(preview.guardrails)));
  }

  // ----- what blocks a plan

  lemma BlockedJoin(a: seq<Notice>, b: seq<Notice>)
    ensures Blocked(a + b) <==> Blocked(a) || Blocked(b)
  {
    if Blocked(a) {
      var i :| 0 <= i < |a| && a[i].level == Block;
      assert (a + b)[i].level == Block;
    }
    if Blocked(b) {
      var i :| 0 <= i < |b| && b[i].level == Block;
      assert (a + b)[|a| + i].level == Block;
    }
  }

  lemma BlockedWhen(condition: bool, level: Level, code: string)
    ensures Blocked(When(condition, level, code)) <==> condition && level == Block
  {
    if condition {
      assert When(condition, level, code)[0].level == level;
    }
  }

  predicate BadLevels(z: Sizing) {
    z.entryPrice.None? || z.initialStop.None? || z.initialStop.value >= z.entryPrice.value
  }

  lemma LevelsBlock(z: Sizing, t: Settings)
    ensures Blocked(LevelGuardrails(z, t)) <==> BadLevels(z)
  {
    hide Blocked;
    hide When;
    var entry := When(z.entryPrice.None?, Block, "missing_entry");
    var stop := When(z.initialStop.None?, Block, "missing_stop");
    var order := When(z.entryPrice.Some? && z.initialStop.Some? && z.initialStop.value >= z.entryPrice.value,
                      Block, "stop_not_below_entry");
    var wide := When(z.riskDistancePct.Some? && z.riskDistancePct.value > t.maxRiskDistancePct,
                     Warning, "risk_distance_wide");
    BlockedWhen(z.entryPrice.None?, Block, "missing_entry");
    BlockedWhen(z.initialStop.None?, Block, "missing_stop");
    BlockedWhen(z.entryPrice.Some? && z.initialStop.Some? && z.initialStop.value >= z.entryPrice.value,
                Block, "stop_not_below_entry");
    BlockedWhen(z.riskDistancePct.Some? && z.riskDistancePct.value > t.maxRiskDistancePct,
                Warning, "risk_distance_wide");
    BlockedJoin(entry, stop);
    BlockedJoin(entry + stop, order);
    BlockedJoin(entry + stop + order, wide);
  }

  lemma ExposureBlocks(activeCount: nat, planned: Summary, t: Settings)
    ensures Blocked(ExposureGuardrails(activeCount, planned, t)) <==> planned.totalRiskPct > t.maxTotalRiskPct
  {
    hide Blocked;
    hide When;
    var open := Larger(activeCount, planned.activeCount) >= t.maxOpenPositions;
    BlockedWhen(open, Warning, "max_open_positions_reached");
    BlockedWhen(planned.totalRiskPct > t.maxTotalRiskPct, Block, "portfolio_risk_budget_exceeded");
    BlockedJoin(When(open, Warning, "max_open_positions_reached"),
                When(planned.totalRiskPct > t.maxTotalRiskPct, Block, "portfolio_risk_budget_exceeded"));
  }

  lemma SizeBlocks(c: Candidate, z: Sizing, t: Settings)
    ensures Blocked(SizeGuardrails(c, z, t)) <==> Oversized(z)
  {
    hide Blocked;
    hide When;
    hide Oversized;
    var shadow := c.validationStatus == Some("shadow_only") && t.shadowOnlyRequiresPaper;
    var nothing := z.suggested.Some? && z.suggested.value <= 0;
    var lottery := c.lotteryRisk == Some("medium") || c.lotteryRisk == Some("high");
    var one := When(shadow, Info, "shadow_only_paper_only");
    var two := When(nothing, Warning, "no_suggested_quantity");
    var three := When(lottery, Warning, "max20d_lottery_risk_warning");
    var four := When(Oversized(z), Block, "quantity_exceeds_volatility_adjusted_size");
    BlockedWhen(shadow, Info, "shadow_only_paper_only");
    BlockedWhen(nothing, Warning, "no_suggested_quantity");
    BlockedWhen(lottery, Warning, "max20d_lottery_risk_warning");
    BlockedWhen(Oversized(z), Block, "quantity_exceeds_volatility_adjusted_size");
    BlockedJoin(one, two);
    BlockedJoin(one + two, three);
    BlockedJoin(one + two + three, four);
  }

  /** A plan is blocked for exactly four reasons: a missing or misplaced level, a total risk
      over budget, and a quantity over the volatility-adjusted size. */
  lemma BlockedExactly(c: Candidate, z: Sizing, activeCount: nat, planned: Summary, t: Settings)
    ensures Blocked(Guardrails(c, z, activeCount, planned, t)) <==>
      BadLevels(z) || planned.totalRiskPct > t.maxTotalRiskPct || Oversized(z)
  {
    LevelsBlock(z, t);
    ExposureBlocks(activeCount, planned, t);
    SizeBlocks(c, z, t);
    hide *;
    var levels, exposure := LevelGuardrails(z, t), ExposureGuardrails(activeCount, planned, t);
    BlockedJoin(levels, exposure);
    BlockedJoin(levels + exposure, SizeGuardrails(c, z, t));
    GuardrailsJoin(c, z, activeCount, planned, t);
  }

  lemma GuardrailsJoin(c: Candidate, z: Sizing, activeCount: nat, planned: Summary, t: Settings)
    ensures Guardrails(c, z, activeCount, planned, t)
         == LevelGuardrails(z, t) + ExposureGuardrails(activeCount, planned, t) + SizeGuardrails(c, z, t)
  {
  }

  // ----- the preview is what happens

  /** A plan's row as creating it over an existing plan leaves it has the levels previewed. */
  predicate Keeps(p: Position, c: Candidate, z: Sizing) {
    && p.symbol == c.symbol && p.status == Planned
    && p.entryPrice in {None, z.entryPrice} && p.quantity in {None, z.planned}
    && Or(if p.currentStop.None? then z.initialStop else p.currentStop,
          if p.initialStop.None? then z.initialStop else p.initialStop) == z.initialStop
  }

  lemma ItemsWith(positions: map<PositionId, Position>, pid: PositionId, p: Position, t: Settings)
    requires t.accountEquity > 0.0 && IsLive(p.status)
    ensures Items(positions[pid := p], t) == Items(positions, t)[pid := ItemOf(p, t)]
  {
    hide ItemOf;
  }

  /** The quantity of the created plan is the previewed one. */
  lemma PlannedQuantity(positions: map<PositionId, Position>, c: Candidate, r: Request, t: Settings)
    requires t.accountEquity > 0.0 && ValidRequest(r)
    ensures PlanRequestOf(positions, c, r, t).quantity == SizingOf(c, r, t).planned
  {
    hide Summarized;
    hide Guardrails;
    hide RiskPerUnit;
    hide RiskAmount;
  }

  /** Without an existing plan, creating the plan succeeds exactly when the preview shows no
      blocking guardrail, and then the portfolio is the previewed one in every figure. */
  lemma PreviewIsWhatHappens(s: Books, c: Candidate, r: Request, t: Settings)
    requires t.accountEquity > 0.0 && ValidRequest(r) && PlanOf(c.id) !in s.positions
    ensures var preview, created := PreviewOf(s.positions, c, r, t), CreatePlan(s, c, r, t);
      && (created.Success? <==> !Blocked(preview.guardrails))
      && (created.Success? ==> Summarized(Items(created.value.positions, t), t) == preview.planned)
  {
    var z, preview := SizingOf(c, r, t), PreviewOf(s.positions, c, r, t);
    BlockedExactly(c, z, preview.before.activeCount, preview.planned, t);
    PlannedQuantity(s.positions, c, r, t);
    hide Guardrails;
    hide Blocked;
    hide Summarized;
    hide RiskAmount;
    hide RiskPerUnit;
    var created := CreatePlan(s, c, r, t);
    if created.Success? {
      var p := created.value.positions[PlanOf(c.id)];
      ItemsWith(s.positions, PlanOf(c.id), p, t);
      assert ItemOf(p, t) == PreviewItem(c, z, t);
    }
  }

  /** The row of an existing plan after the request. */
  function Replanned(p: Position, request: PlanRequest): Position {
    if PlanNeedsFill(p, request) then FillMissing(p, request) else p
  }

  lemma KeepsExactly(p: Position, request: PlanRequest, c: Candidate, z: Sizing, t: Settings)
    requires t.accountEquity > 0.0 && z.entryPrice.Some? && z.initialStop.Some?
    requires request.entryPrice == z.entryPrice && request.initialStop == z.initialStop && request.quantity == z.planned
    ensures ItemOf(Replanned(p, request), t) == PreviewItem(c, z, t) <==> Keeps(p, c, z)
  {
    hide RiskAmount;
  }

  lemma SameSummary(a: map<PositionId, Item>, b: map<PositionId, Item>, t: Settings)
    requires t.accountEquity > 0.0
    ensures Summarized(a, t) == Summarized(b, t) <==> a == b
  {
  }

  /** When the request succeeds, the portfolio is the previewed one if and only if there was
      no such plan yet, or the plan already there holds no level but the previewed ones. */
  lemma PreviewMatchesExactly(s: Books, c: Candidate, r: Request, t: Settings)
    requires t.accountEquity > 0.0 && ValidRequest(r)
    ensures var preview, created := PreviewOf(s.positions, c, r, t), CreatePlan(s, c, r, t);
      created.Success? ==>
        (Summarized(Items(created.value.positions, t), t) == preview.planned
         <==> PlanOf(c.id) !in s.positions || Keeps(s.positions[PlanOf(c.id)], c, preview.sizing))
  {
    if CreatePlan(s, c, r, t).Success? {
      if PlanOf(c.id) !in s.positions {
        PreviewIsWhatHappens(s, c, r, t);
      } else {
        ExistingPlanMatches(s, c, r, t);
      }
    }
  }

  lemma ExistingPlanMatches(s: Books, c: Candidate, r: Request, t: Settings)
    requires t.accountEquity > 0.0 && ValidRequest(r) && CreatePlan(s, c, r, t).Success? && PlanOf(c.id) in s.positions
    ensures Summarized(Items(CreatePlan(s, c, r, t).value.positions, t), t) == PreviewOf(s.positions, c, r, t).planned
       <==> Keeps(s.positions[PlanOf(c.id)], c, SizingOf(c, r, t))
  {
    hide Guardrails;
    hide Blocked;
    hide Summarized;
    hide RiskAmount;
    hide RiskPerUnit;
    hide BaseQuantity;
    hide AdjustedQuantity;
    hide Keeps;
    var pid, z, request := PlanOf(c.id), SizingOf(c, r, t), PlanRequestOf(s.positions, c, r, t);
    PlannedQuantity(s.positions, c, r, t);
    var after := CreatePlan(s, c, r, t).value.positions;
    var p := Replanned(s.positions[pid], request);
    assert after == s.positions[pid := p];
    KeepsExactly(s.positions[pid], request, c, z, t);
    SameSummary(Items(after, t), PlannedItems(s.positions, c, z, t), t);
    ItemsMatch(s.positions, pid, p, PreviewItem(c, z, t), t);
  }

  lemma ItemsMatch(positions: map<PositionId, Position>, pid: PositionId, p: Position, item: Item, t: Settings)
    requires t.accountEquity > 0.0 && item.status == Planned
    ensures Items(positions[pid := p], t) == Items(positions, t)[pid := item] <==> ItemOf(p, t) == item
  {
    var after, previewed := Items(positions[pid := p], t), Items(positions, t)[pid := item];
    assert pid in previewed && previewed[pid] == item;
    if IsLive(p.status) {
      ItemsWith(positions, pid, p, t);
      assert after[pid] == ItemOf(p, t);
    } else {
      assert pid !in after;
    }
  }

  // ----- the limits

  lemma TimesMonotone(x: real, y: real, k: real)
    requires x <= y && k >= 0.0
    ensures Times(x, k) <= Times(y, k) && Times(k, x) <= Times(k, y)
  {
  }

  lemma UnblockedIsInBudget(positions: map<PositionId, Position>, c: Candidate, r: Request, t: Settings)
    requires t.accountEquity > 0.0
    ensures var preview := PreviewOf(positions, c, r, t);
      !Blocked(preview.guardrails) ==> preview.planned.totalRiskPct <= t.maxTotalRiskPct
  {
    var z, preview := SizingOf(c, r, t), PreviewOf(positions, c, r, t);
    BlockedExactly(c, z, preview.before.activeCount, preview.planned, t);
  }

  /** The plan's row after a successful request, known before it is made. */
  function PlannedRow(positions: map<PositionId, Position>, request: PlanRequest): Position {
    var pid := PlanOf(request.candidate);
    if pid in positions then Replanned(positions[pid], request) else NewPlan(request)
  }

  function RowRisk(p: Position, t: Settings): real
    requires t.accountEquity > 0.0
  {
    if IsLive(p.status) then ItemOf(p, t).riskAmount.GetOr(0.0) else 0.0
  }

  /** The risk of all other live positions. */
  ghost function OtherRisk(positions: map<PositionId, Position>, pid: PositionId, t: Settings): real
    requires t.accountEquity > 0.0
  {
    Total(Risks(Items(positions, t) - {pid}))
  }

  lemma RiskSplits(items: map<PositionId, Item>, pid: PositionId, item: Item)
    requires GridRisks(items[pid := item])
    ensures TotalRisk(items[pid := item]) == Total(Risks(items - {pid})) + item.riskAmount.GetOr(0.0)
  {
    var all := items[pid := item];
    TotalIsExact(all);
    TotalRemove(Risks(all), pid);
    assert Risks(all) - {pid} == Risks(items - {pid});
  }

  lemma RiskWithRow(positions: map<PositionId, Position>, pid: PositionId, p: Position, t: Settings)
    requires t.accountEquity > 0.0
    ensures TotalRisk(Items(positions[pid := p], t)) == OtherRisk(positions, pid, t) + RowRisk(p, t)
  {
    ItemsOnGrid(positions[pid := p], t);
    hide ItemOf;
    if IsLive(p.status) {
      ItemsWith(positions, pid, p, t);
      RiskSplits(Items(positions, t), pid, ItemOf(p, t));
    } else {
      assert Items(positions[pid := p], t) == Items(positions, t) - {pid};
      TotalIsExact(Items(positions[pid := p], t));
    }
  }

  /** The risk after a successful request: that of the other positions and of the plan's row. */
  lemma RiskAfterPlan(s: Books, c: Candidate, r: Request, t: Settings)
    requires t.accountEquity > 0.0
    ensures var request, created := PlanRequestOf(s.positions, c, r, t), CreatePlan(s, c, r, t);
      created.Success? ==>
        TotalRisk(Items(created.value.positions, t))
          == OtherRisk(s.positions, PlanOf(c.id), t) + RowRisk(PlannedRow(s.positions, request), t)
  {
    var request, created := PlanRequestOf(s.positions, c, r, t), CreatePlan(s, c, r, t);
    if created.Success? {
      CreatedRow(s, request);
      RiskWithRow(s.positions, PlanOf(c.id), PlannedRow(s.positions, request), t);
    }
  }

  lemma CreatedRow(s: Books, request: PlanRequest)
    requires CreateCandidatePlan(s, request).Success?
    ensures CreateCandidatePlan(s, request).value.positions
         == s.positions[PlanOf(request.candidate) := PlannedRow(s.positions, request)]
  {
  }

  lemma PreviewedRisk(positions: map<PositionId, Position>, c: Candidate, r: Request, t: Settings)
    requires t.accountEquity > 0.0
    ensures PreviewOf(positions, c, r, t).planned.totalRisk
         == OtherRisk(positions, PlanOf(c.id), t) + SizingOf(c, r, t).plannedRisk.GetOr(0.0)
  {
    var z := SizingOf(c, r, t);
    ItemsOnGrid(positions, t);
    RiskOnGrid(z.entryPrice, z.initialStop, z.planned);
    RiskSplits(Items(positions, t), PlanOf(c.id), PreviewItem(c, z, t));
  }

  /** The budget, up to the rounding of its percentage. */
  function BudgetLimit(t: Settings): real {
    Times(t.maxTotalRiskPct + HALF_MICRO, t.accountEquity)
  }

  lemma PctInBudget(total: real, t: Settings)
    requires t.accountEquity > 0.0 && Round6(total / t.accountEquity) <= t.maxTotalRiskPct
    ensures total <= BudgetLimit(t)
  {
    var share := total / t.accountEquity;
    assert share <= t.maxTotalRiskPct + HALF_MICRO;
    assert total == share * t.accountEquity;
    TimesMonotone(share, t.maxTotalRiskPct + HALF_MICRO, t.accountEquity);
  }

  /** A request that fills in a plan or creates one, and succeeds, was not blocked. */
  lemma SuccessIsUnblocked(s: Books, c: Candidate, r: Request, t: Settings)
    requires t.accountEquity > 0.0
    ensures var request := PlanRequestOf(s.positions, c, r, t);
      && request.entryPrice == EntryOf(c, r) && request.initialStop == StopOf(c, r)
      && (CreatePlan(s, c, r, t).Success?
          && (PlanOf(c.id) !in s.positions || PlanNeedsFill(s.positions[PlanOf(c.id)], request)) ==>
            !Blocked(PreviewOf(s.positions, c, r, t).guardrails))
  {
    hide Summarized;
    hide SizingOf;
    hide Guardrails;
    hide Blocked;
    hide EntryOf;
    hide StopOf;
  }

  lemma PlannedSummary(positions: map<PositionId, Position>, c: Candidate, r: Request, t: Settings)
    requires t.accountEquity > 0.0
    ensures PreviewOf(positions, c, r, t).planned == Summarized(PlannedItems(positions, c, SizingOf(c, r, t), t), t)
  {
  }

  lemma UnblockedPreviewFits(positions: map<PositionId, Position>, c: Candidate, r: Request, t: Settings)
    requires t.accountEquity > 0.0
    ensures var preview := PreviewOf(positions, c, r, t);
      !Blocked(preview.guardrails) ==> preview.planned.totalRisk <= BudgetLimit(t)
  {
    hide *;
    UnblockedIsInBudget(positions, c, r, t);
    PlannedSummary(positions, c, r, t);
    SummaryFigures(PlannedItems(positions, c, SizingOf(c, r, t), t), t);
    if !Blocked(PreviewOf(positions, c, r, t).guardrails) {
      PctInBudget(PreviewOf(positions, c, r, t).planned.totalRisk, t);
    }
  }

  /** The plan fills in a missing plan or one whose kept levels risk no more than previewed. */
  predicate RisksAsPreviewed(positions: map<PositionId, Position>, request: PlanRequest, z: Sizing, t: Settings)
    requires t.accountEquity > 0.0
  {
    var pid := PlanOf(request.candidate);
    pid !in positions
    || (PlanNeedsFill(positions[pid], request)
        && RowRisk(PlannedRow(positions, request), t) <= z.plannedRisk.GetOr(0.0))
  }

  /** A successful request leaves the total risk within the budget if there was no plan yet,
      or if it fills in a plan whose kept levels risk no more than the previewed ones. */
  lemma PlanStaysInBudget(s: Books, c: Candidate, r: Request, t: Settings)
    requires t.accountEquity > 0.0 && ValidRequest(r)
    ensures var request, created := PlanRequestOf(s.positions, c, r, t), CreatePlan(s, c, r, t);
      created.Success? && RisksAsPreviewed(s.positions, request, SizingOf(c, r, t), t) ==>
        TotalRisk(Items(created.value.positions, t)) <= BudgetLimit(t)
  {
    var request, created := PlanRequestOf(s.positions, c, r, t), CreatePlan(s, c, r, t);
    if created.Success? && RisksAsPreviewed(s.positions, request, SizingOf(c, r, t), t) {
      PlannedQuantity(s.positions, c, r, t);
      SuccessIsUnblocked(s, c, r, t);
      UnblockedPreviewFits(s.positions, c, r, t);
      RiskAfterPlan(s, c, r, t);
      PreviewedRisk(s.positions, c, r, t);
      NewPlanRisk(c, r, t, request);
      hide Blocked;
      hide RowRisk;
      hide OtherRisk;
      hide BudgetLimit;
      hide SizingOf;
      hide PreviewOf;
      hide CreatePlan;
      assert request.candidate == c.id;
    }
  }

  lemma NewPlanRisk(c: Candidate, r: Request, t: Settings, request: PlanRequest)
    requires t.accountEquity > 0.0
    requires request.entryPrice == EntryOf(c, r) && request.initialStop == StopOf(c, r)
    requires request.quantity == SizingOf(c, r, t).planned
    ensures RowRisk(NewPlan(request), t) == SizingOf(c, r, t).plannedRisk.GetOr(0.0)
  {
    hide RiskAmount;
  }

  /** The risk of n shares is within the limit per trade. */
  predicate FitsLimit(n: int, z: Sizing) {
    z.riskPerUnit.Some? && Times(z.riskPerUnit.value, n as real) <= z.maxRisk
  }

  /** The default size has a positive risk within the limit per trade, scaled down with the
      volatility multiplier. */
  lemma DefaultSizeFits(c: Candidate, r: Request, t: Settings)
    requires r.quantity.None?
    ensures var z := SizingOf(c, r, t);
      z.planned.Some? ==>
        && z.plannedRisk.Some?
        && 0.0 < z.plannedRisk.value <= Times(z.maxRisk, z.multiplier) <= z.maxRisk
  {
    var z := SizingOf(c, r, t);
    if z.planned.Some? {
      SuggestedSize(c, r, t);
      PlannedSize(c, r, t);
      hide *;
      SizeFits(z.maxRisk, z.riskPerUnit.value, z.multiplier, z.base.value, z.suggested.value);
    }
  }

  /** Unscaled, the suggested size is the largest whole number of shares whose risk fits the
      limit; if it is zero or less, not even one share fits. */
  lemma SuggestedSizeExactly(c: Candidate, r: Request, t: Settings)
    ensures var z := SizingOf(c, r, t);
      z.suggested.Some? && z.multiplier == 1.0 ==> forall n :: FitsLimit(n, z) <==> n <= z.suggested.value
  {
    var z := SizingOf(c, r, t);
    if z.suggested.Some? && z.multiplier == 1.0 {
      SuggestedSize(c, r, t);
      hide SizingOf;
      forall n
        ensures FitsLimit(n, z) <==> n <= z.suggested.value
      {
        FitsExactly(z.maxRisk, z.riskPerUnit.value, n);
      }
    }
  }

  lemma SuggestedSize(c: Candidate, r: Request, t: Settings)
    ensures var z := SizingOf(c, r, t);
      z.suggested.Some? ==>
        && z.riskPerUnit.Some? && z.riskPerUnit.value > 0.0 && z.base.Some?
        && 0.5 <= z.multiplier <= 1.0
        && z.base.value == Ratio(z.maxRisk, z.riskPerUnit.value).Floor
        && z.suggested.value == Times(z.base.value as real, z.multiplier).Floor
  {
    hide Round6;
  }

  lemma PlannedSize(c: Candidate, r: Request, t: Settings)
    requires r.quantity.None?
    ensures var z := SizingOf(c, r, t);
      z.planned.Some? ==>
        && z.riskPerUnit.Some? && z.suggested.Some? && z.suggested.value > 0
        && z.planned == Some(z.suggested.value as real)
        && z.plannedRisk == Some(Times(z.riskPerUnit.value, z.suggested.value as real))
  {
    var z := SizingOf(c, r, t);
    if z.planned.Some? {
      assert z.riskPerUnit.Some? && z.suggested.Some?;
      assert z.plannedRisk == Some(Round6(Times(z.riskPerUnit.value, z.suggested.value as real)));
      Round6OnGrid(z.entryPrice.value - z.initialStop.value);
      hide *;
      GridTimes(z.riskPerUnit.value, z.suggested.value);
    }
  }

  lemma GridTimes(risk: real, n: int)
    requires OnGrid(risk)
    ensures Round6(Times(risk, n as real)) == Times(risk, n as real)
  {
    GridTimesInt(risk, n);
    Round6Identity(Times(risk, n as real));
  }

  lemma SizeFits(maxRisk: real, risk: real, multiplier: real, base: int, q: int)
    requires risk > 0.0 && 0.5 <= multiplier <= 1.0 && q > 0
    requires base == Ratio(maxRisk, risk).Floor && q == Times(base as real, multiplier).Floor
    ensures 0.0 < Times(risk, q as real) <= Times(maxRisk, multiplier) <= maxRisk
  {
    var room := Ratio(maxRisk, risk);
    assert maxRisk == room * risk;
    assert base as real * multiplier >= q as real;
    assert base > 0 by {
      if base <= 0 {
        TimesMonotone(base as real, 0.0, multiplier);
      }
    }
    TimesMonotone(q as real, base as real * multiplier, risk);
    TimesMonotone(base as real, room, risk);
    TimesMonotone(base as real * risk, maxRisk, multiplier);
    assert (base as real * multiplier) * risk == (base as real * risk) * multiplier;
    TimesMonotone(multiplier, 1.0, maxRisk);
  }

  lemma TimesStrict(x: real, y: real, k: real)
    requires x < y && k > 0.0
    ensures Times(k, x) < Times(k, y)
  {
    assert (y - x) * k > 0.0;
  }

  lemma FitsExactly(maxRisk: real, risk: real, n: int)
    requires risk > 0.0
    ensures Times(risk, n as real) <= maxRisk <==> n <= Ratio(maxRisk, risk).Floor
  {
    var room := Ratio(maxRisk, risk);
    assert maxRisk == Times(risk, room);
    hide Times;
    hide Ratio;
    if n as real <= room {
      TimesMonotone(n as real, room, risk);
    } else {
      TimesStrict(room, n as real, risk);
    }
  }

  /** In any ledger, planned, open and reduced risk make up the total, and so do the symbols. */
  lemma LedgerRiskAddsUp(positions: map<PositionId, Position>, t: Settings)
    requires t.accountEquity > 0.0
    ensures var summary := Summarized(Items(positions, t), t);
      && summary.plannedRisk + summary.openRisk + summary.reducedRisk == summary.totalRisk
      && Total(BucketRisks(summary.bySymbol)) == summary.totalRisk
  {
    var items := Items(positions, t);
    ItemsOnGrid(positions, t);
    forall pid | pid in items
      ensures IsLive(items[pid].status)
    {
    }
    hide Items;
    hide GridRisks;
    StatusesPartition(items);
    BucketsAddUp(items, t);
  }

  // ----- exactly which plan already there keeps every portfolio within budget

  /** What the guardrail on the total risk lets through. */
  predicate InBudget(total: real, t: Settings)
    requires t.accountEquity > 0.0
  {
    Round6(total / t.accountEquity) <= t.maxTotalRiskPct
  }

  /** The request's levels, before the preview's verdict. */
  function LevelsOf(c: Candidate, r: Request, t: Settings): PlanRequest {
    PlanRequest(c.id, c.symbol, EntryOf(c, r), StopOf(c, r), SizingOf(c, r, t).planned, ExitProfileOf(c), false)
  }

  /** On every safe ledger that holds p as the candidate's plan, a request that succeeds
      leaves the total risk in budget. */
  ghost predicate AlwaysInBudget(p: Position, c: Candidate, r: Request, t: Settings)
    requires t.accountEquity > 0.0
  {
    forall s: Books ::
      Safe(s) && PlanOf(c.id) in s.positions && s.positions[PlanOf(c.id)] == p && CreatePlan(s, c, r, t).Success? ==>
        InBudget(TotalRisk(Items(CreatePlan(s, c, r, t).value.positions, t)), t)
  }

  /** The request is blocked whatever the other positions are. */
  predicate BlockedAlone(z: Sizing, t: Settings)
    requires t.accountEquity > 0.0
  {
    BadLevels(z) || Oversized(z) || !InBudget(z.plannedRisk.GetOr(0.0), t)
  }

  /** The request lacks a level; or it fills the plan in, and either is blocked anyway or
      the row filled in risks no more than previewed. */
  predicate FillKeepsBudget(p: Position, levels: PlanRequest, z: Sizing, t: Settings)
    requires t.accountEquity > 0.0
  {
    || z.entryPrice.None? || z.initialStop.None?
    || (PlanNeedsFill(p, levels)
        && (BlockedAlone(z, t) || RowRisk(FillMissing(p, levels), t) <= z.plannedRisk.GetOr(0.0)))
  }

  function Share(total: real, equity: real): real
    requires equity > 0.0
  {
    total / equity
  }

  lemma ShareMonotone(x: real, y: real, equity: real)
    requires x <= y && equity > 0.0
    ensures Share(x, equity) <= Share(y, equity)
  {
    assert Share(x, equity) * equity == x && Share(y, equity) * equity == y;
    if Share(x, equity) > Share(y, equity) {
      TimesStrict(Share(y, equity), Share(x, equity), equity);
    }
  }

  lemma LessIsInBudget(x: real, y: real, t: Settings)
    requires t.accountEquity > 0.0 && x <= y && InBudget(y, t)
    ensures InBudget(x, t)
  {
    ShareMonotone(x, y, t.accountEquity);
    Round6Monotone(Share(x, t.accountEquity), Share(y, t.accountEquity));
  }

  lemma ShareOfTimes(k: real, equity: real)
    requires equity > 0.0
    ensures Share(Times(k, equity), equity) == k
  {
  }

  function Units(n: int): real {
    n as real / 1000000.0
  }

  lemma UnitsOnGrid(n: int)
    ensures OnGrid(Units(n))
  {
    assert Units(n) * 1000000.0 == n as real;
  }

  /** Some number of units is over budget. */
  lemma TooManyUnits(t: Settings) returns (n: int)
    requires t.accountEquity > 0.0
    ensures !InBudget(Units(n), t)
  {
    var total := Times(t.maxTotalRiskPct + 1.0, t.accountEquity);
    n := (total * 1000000.0).Floor + 1;
    ShareOfTimes(t.maxTotalRiskPct + 1.0, t.accountEquity);
    if InBudget(Units(n), t) {
      LessIsInBudget(total, Units(n), t);
      assert false;
    }
  }

  lemma ClimbToBudget(n: int, over: int, t: Settings) returns (top: int)
    requires t.accountEquity > 0.0 && InBudget(Units(n), t) && !InBudget(Units(over), t)
    ensures n <= top && InBudget(Units(top), t) && !InBudget(Units(top + 1), t)
    decreases over - n
  {
    top := n;
    if InBudget(Units(n + 1), t) {
      if over <= n + 1 {
        LessIsInBudget(Units(over), Units(n + 1), t);
        assert false;
      }
      top := ClimbToBudget(n + 1, over, t);
    }
  }

  /** The largest amount in budget from a given one on. */
  lemma LargestInBudget(x: real, t: Settings) returns (top: real)
    requires t.accountEquity > 0.0 && OnGrid(x) && InBudget(x, t)
    ensures OnGrid(top) && x <= top && InBudget(top, t)
    ensures forall y :: OnGrid(y) && y > top ==> !InBudget(y, t)
  {
    hide InBudget;
    var n := (x * 1000000.0).Floor;
    assert x == Units(n);
    var over := TooManyUnits(t);
    var units := ClimbToBudget(n, over, t);
    top := Units(units);
    UnitsOnGrid(units);
    forall y | OnGrid(y) && y > top
      ensures !InBudget(y, t)
    {
      assert y >= Units(units + 1) by {
        assert (y * 1000000.0).Floor >= units + 1;
      }
      if InBudget(y, t) {
        LessIsInBudget(Units(units + 1), y, t);
      }
    }
  }

  /** An open position of one share with a given risk. */
  function Risking(risk: real): Position {
    Position("SPY", Open, None, Some(1.0 + risk), Some(1.0), Some(1.0), Some(1.0), Some(0.0), Some(0.0), None)
  }

  lemma RiskingRisks(risk: real, t: Settings)
    requires t.accountEquity > 0.0 && risk >= 0.0 && OnGrid(risk)
    ensures RowRisk(Risking(risk), t) == risk
  {
    Round6Identity(risk);
    assert Times(risk, 1.0) == risk;
    hide Round6;
  }

  /** The plan beside one open position of a given risk. */
  function Beside(pid: PositionId, p: Position, risk: real): Books {
    Books(map[pid := p, Manual("w") := Risking(risk)], [], [])
  }

  lemma BesideRisks(c: string, p: Position, risk: real, t: Settings)
    requires t.accountEquity > 0.0 && risk >= 0.0 && OnGrid(risk) && SafePosition(p)
    ensures Safe(Beside(PlanOf(c), p, risk))
    ensures OtherRisk(Beside(PlanOf(c), p, risk).positions, PlanOf(c), t) == risk
  {
    var pid, positions := PlanOf(c), Beside(PlanOf(c), p, risk).positions;
    RiskingRisks(risk, t);
    var others := Risks(Items(positions, t) - {pid});
    assert others == map[Manual("w") := risk] by {
      hide MakeItem;
    }
    TotalRemove(others, Manual("w"));
    assert others - {Manual("w")} == map[];
  }

  lemma {:induction false} TotalNonNegative<K(!new)>(m: map<K, real>)
    requires forall k :: k in m ==> m[k] >= 0.0
    ensures Total(m) >= 0.0
    decreases |m|
  {
    if m != map[] {
      var k :| k in m && Total(m) == m[k] + Total(m - {k});
      TotalNonNegative(m - {k});
    }
  }

  lemma RiskIsNonNegative(entry: Option<real>, stop: Option<real>, quantity: Option<real>)
    requires quantity.Some? ==> quantity.value >= 0.0
    ensures RiskAmount(entry, stop, quantity).GetOr(0.0) >= 0.0
  {
    if RiskAmount(entry, stop, quantity).Some? {
      Round6Monotone(0.0, entry.value - stop.value);
      ProductNonNegative(RiskPerUnit(entry, stop).value, quantity.value);
      Round6Monotone(0.0, Times(RiskPerUnit(entry, stop).value, quantity.value));
    }
  }

  lemma OthersRiskSomething(s: Books, pid: PositionId, t: Settings)
    requires t.accountEquity > 0.0 && Safe(s)
    ensures OtherRisk(s.positions, pid, t) >= 0.0
  {
    var items := Items(s.positions, t) - {pid};
    forall other | other in items
      ensures Risks(items)[other] >= 0.0
    {
      var p := s.positions[other];
      assert SafePosition(p);
      RiskIsNonNegative(p.entryPrice, Or(p.currentStop, p.initialStop), p.quantity);
    }
    TotalNonNegative(Risks(items));
  }

  lemma RequestIsLevels(positions: map<PositionId, Position>, c: Candidate, r: Request, t: Settings)
    requires t.accountEquity > 0.0 && ValidRequest(r)
    ensures PlanRequestOf(positions, c, r, t)
         == LevelsOf(c, r, t).(blocked := Blocked(PreviewOf(positions, c, r, t).guardrails))
  {
    PlannedQuantity(positions, c, r, t);
    hide Blocked;
    hide SizingOf;
    hide PreviewOf;
  }

  lemma PreviewBlocks(positions: map<PositionId, Position>, c: Candidate, r: Request, t: Settings)
    requires t.accountEquity > 0.0
    ensures var z := SizingOf(c, r, t);
      Blocked(PreviewOf(positions, c, r, t).guardrails) <==>
        || BadLevels(z) || Oversized(z)
        || !InBudget(OtherRisk(positions, PlanOf(c.id), t) + z.plannedRisk.GetOr(0.0), t)
  {
    hide PreviewOf;
    hide SizingOf;
    hide OtherRisk;
    hide Guardrails;
    hide Blocked;
    hide BadLevels;
    hide Oversized;
    hide PlannedItems;
    hide Summarized;
    var z, preview := SizingOf(c, r, t), PreviewOf(positions, c, r, t);
    PreviewedRisk(positions, c, r, t);
    PlannedSummary(positions, c, r, t);
    SummaryFigures(PlannedItems(positions, c, z, t), t);
    BlockedExactly(c, z, preview.before.activeCount, preview.planned, t);
    PreviewGuards(positions, c, r, t);
  }

  lemma PreviewGuards(positions: map<PositionId, Position>, c: Candidate, r: Request, t: Settings)
    requires t.accountEquity > 0.0
    ensures var z, preview := SizingOf(c, r, t), PreviewOf(positions, c, r, t);
      preview.guardrails == Guardrails(c, z, preview.before.activeCount, preview.planned, t)
  {
    hide Guardrails;
    hide SizingOf;
    hide Summarized;
  }

  lemma FillSucceeds(s: Books, levels: PlanRequest, blocked: bool)
    requires PlanOf(levels.candidate) in s.positions
    ensures var p, filled := s.positions[PlanOf(levels.candidate)], CreateCandidatePlan(s, levels.(blocked := blocked));
      filled.Success? <==>
        levels.entryPrice.Some? && levels.initialStop.Some? && (PlanNeedsFill(p, levels) ==> !blocked)
    ensures PlannedRow(s.positions, levels.(blocked := blocked))
         == Replanned(s.positions[PlanOf(levels.candidate)], levels)
  {
  }

  /** What a request does to a ledger that holds a plan of the candidate. */
  lemma OverThePlan(s: Books, c: Candidate, r: Request, t: Settings)
    requires t.accountEquity > 0.0 && ValidRequest(r) && PlanOf(c.id) in s.positions
    ensures var z, levels, created := SizingOf(c, r, t), LevelsOf(c, r, t), CreatePlan(s, c, r, t);
      var p, others := s.positions[PlanOf(c.id)], OtherRisk(s.positions, PlanOf(c.id), t);
      && (created.Success? <==>
           && z.entryPrice.Some? && z.initialStop.Some?
           && (PlanNeedsFill(p, levels) ==>
                 !BadLevels(z) && !Oversized(z) && InBudget(others + z.plannedRisk.GetOr(0.0), t)))
      && (created.Success? ==>
            TotalRisk(Items(created.value.positions, t)) == others + RowRisk(Replanned(p, levels), t))
  {
    hide PreviewOf;
    hide SizingOf;
    hide LevelsOf;
    hide PlanRequestOf;
    hide OtherRisk;
    hide RowRisk;
    hide Replanned;
    hide PlannedRow;
    hide CreateCandidatePlan;
    hide TotalRisk;
    hide Items;
    hide Blocked;
    hide BadLevels;
    hide Oversized;
    hide InBudget;
    hide PlanNeedsFill;
    var levels := LevelsOf(c, r, t);
    RequestIsLevels(s.positions, c, r, t);
    PreviewBlocks(s.positions, c, r, t);
    RiskAfterPlan(s, c, r, t);
    SizedLevels(c, r, t);
    FillSucceeds(s, levels, Blocked(PreviewOf(s.positions, c, r, t).guardrails));
  }

  lemma SizedLevels(c: Candidate, r: Request, t: Settings)
    ensures var z, levels := SizingOf(c, r, t), LevelsOf(c, r, t);
      levels.candidate == c.id && levels.entryPrice == z.entryPrice && levels.initialStop == z.initialStop
  {
  }

  lemma SizingOnGrid(c: Candidate, r: Request, t: Settings)
    ensures OnGrid(SizingOf(c, r, t).plannedRisk.GetOr(0.0))
  {
    var z := SizingOf(c, r, t);
    RiskOnGrid(z.entryPrice, z.initialStop, z.planned);
  }

  lemma RowOnGrid(p: Position, t: Settings)
    requires t.accountEquity > 0.0
    ensures OnGrid(RowRisk(p, t))
  {
    RiskOnGrid(p.entryPrice, Or(p.currentStop, p.initialStop), p.quantity);
    assert OnGrid(0.0);
    hide RiskAmount;
    hide OnGrid;
  }

  /** An amount that fits beside the risk shown and not beside the risk kept. */
  lemma RoomBeside(shown: real, kept: real, fills: bool, t: Settings) returns (others: real)
    requires t.accountEquity > 0.0 && OnGrid(shown) && OnGrid(kept)
    requires fills ==> InBudget(shown, t) && shown < kept
    ensures OnGrid(others) && others >= 0.0
    ensures fills ==> InBudget(others + shown, t)
    ensures !InBudget(others + kept, t)
  {
    hide InBudget;
    hide OnGrid;
    UnitsOnGrid(0);
    UnitsOnGrid(1);
    if fills {
      var top := LargestInBudget(shown, t);
      others := top - shown;
      GridSub(top, shown);
      GridAdd(others, kept);
      assert others + shown == top;
    } else if InBudget(kept, t) {
      var top := LargestInBudget(kept, t);
      others := top - kept + Units(1);
      GridSub(top, kept);
      GridAdd(top - kept, Units(1));
      GridAdd(others, kept);
    } else {
      others := Units(0);
      assert others + kept == kept;
    }
  }

  /** Otherwise some ledger with one more open position lets the request through and ends
      over budget. */
  lemma SomeLedgerBreaks(p: Position, c: Candidate, r: Request, t: Settings)
    requires t.accountEquity > 0.0 && ValidRequest(r) && SafePosition(p)
    requires !FillKeepsBudget(p, LevelsOf(c, r, t), SizingOf(c, r, t), t)
    ensures !AlwaysInBudget(p, c, r, t)
  {
    hide SizingOf;
    hide LevelsOf;
    hide OnGrid;
    hide InBudget;
    hide FillMissing;
    hide RowRisk;
    hide OtherRisk;
    hide CreatePlan;
    hide Items;
    hide TotalRisk;
    hide Safe;
    var levels, z := LevelsOf(c, r, t), SizingOf(c, r, t);
    var shown, kept := z.plannedRisk.GetOr(0.0), RowRisk(Replanned(p, levels), t);
    SizingOnGrid(c, r, t);
    RowOnGrid(Replanned(p, levels), t);
    var others := RoomBeside(shown, kept, PlanNeedsFill(p, levels), t);
    var s := Beside(PlanOf(c.id), p, others);
    BesideRisks(c.id, p, others, t);
    OverThePlan(s, c, r, t);
  }

  /** The exact condition, checked on the plan's row and the request alone: every ledger
      that holds the row stays in budget if and only if the request lacks a level, or fills
      the row in and either is blocked by itself or leaves it risking no more than shown. */
  lemma BudgetKeptExactly(p: Position, c: Candidate, r: Request, t: Settings)
    requires t.accountEquity > 0.0 && ValidRequest(r) && SafePosition(p)
    ensures AlwaysInBudget(p, c, r, t) <==> FillKeepsBudget(p, LevelsOf(c, r, t), SizingOf(c, r, t), t)
  {
    if FillKeepsBudget(p, LevelsOf(c, r, t), SizingOf(c, r, t), t) {
      forall s: Books | Safe(s) && PlanOf(c.id) in s.positions && s.positions[PlanOf(c.id)] == p
                        && CreatePlan(s, c, r, t).Success?
        ensures InBudget(TotalRisk(Items(CreatePlan(s, c, r, t).value.positions, t)), t)
      {
        FilledInBudget(s, c, r, t);
      }
    } else {
      SomeLedgerBreaks(p, c, r, t);
    }
  }

  lemma FilledInBudget(s: Books, c: Candidate, r: Request, t: Settings)
    requires t.accountEquity > 0.0 && ValidRequest(r) && Safe(s) && PlanOf(c.id) in s.positions
    requires CreatePlan(s, c, r, t).Success?
    requires FillKeepsBudget(s.positions[PlanOf(c.id)], LevelsOf(c, r, t), SizingOf(c, r, t), t)
    ensures InBudget(TotalRisk(Items(CreatePlan(s, c, r, t).value.positions, t)), t)
  {
    hide SizingOf;
    hide LevelsOf;
    hide InBudget;
    hide FillMissing;
    hide RowRisk;
    hide OtherRisk;
    hide CreatePlan;
    hide Items;
    hide TotalRisk;
    hide Safe;
    var shown, others := SizingOf(c, r, t).plannedRisk.GetOr(0.0), OtherRisk(s.positions, PlanOf(c.id), t);
    OthersRiskSomething(s, PlanOf(c.id), t);
    OverThePlan(s, c, r, t);
    if InBudget(others + shown, t) {
      LessIsInBudget(shown, others + shown, t);
    }
    LessIsInBudget(TotalRisk(Items(CreatePlan(s, c, r, t).value.positions, t)), others + shown, t);
  }

  // ----- a plan that keeps its old levels

  const CAUTIOUS := Settings(10000.0, 0.005, 0.02, 3, 0.12, true)
  const NEAR_STOP := Candidate(
    "c", "SPY", Some(100.0), Some(99.0), None, None, None, None, None, None, None, None)
  const FAR := Request(Some(5000.0), Some(1.0), None)
  const FIFTY := Request(None, None, Some(50.0))

  /** The plan asked for with far levels, for which the suggested size is zero. */
  const FAR_PLAN := Position(
    "SPY", Planned, None, Some(5000.0), None, Some(1.0), Some(1.0), Some(0.0), Some(0.0), None)

  lemma FarSizing()
    ensures var z := SizingOf(NEAR_STOP, FAR, CAUTIOUS);
      && z.entryPrice == Some(5000.0) && z.initialStop == Some(1.0) && z.suggested == Some(0)
      && z.planned == None && z.plannedRisk == None && z.multiplier == 1.0
  {
    assert Round6(4999.0) == 4999.0 && Round6(50.0) == 50.0;
    assert Ratio(50.0, 4999.0).Floor == 0;
  }

  lemma NearStopSizing()
    ensures var z := SizingOf(NEAR_STOP, FIFTY, CAUTIOUS);
      && z.entryPrice == Some(100.0) && z.initialStop == Some(99.0) && z.planned == Some(50.0)
      && z.multiplier == 1.0 && z.plannedRisk == Some(50.0)
  {
    assert Round6(1.0) == 1.0 && Round6(50.0) == 50.0;
  }

  lemma FarLevels()
    ensures LevelsOf(NEAR_STOP, FAR, CAUTIOUS)
         == PlanRequest("c", "SPY", Some(5000.0), Some(1.0), None, None, false)
  {
    hide SizingOf;
    FarSizing();
  }

  lemma FarIsNotBlocked()
    ensures !Blocked(PreviewOf(EMPTY.positions, NEAR_STOP, FAR, CAUTIOUS).guardrails)
  {
    hide SizingOf;
    hide PreviewOf;
    hide OtherRisk;
    hide Blocked;
    FarSizing();
    NoOtherRisk(EMPTY.positions);
    PreviewBlocks(EMPTY.positions, NEAR_STOP, FAR, CAUTIOUS);
    assert InBudget(0.0, CAUTIOUS);
  }

  /** The empty ledger accepts it and stores a plan without a quantity. */
  lemma FarPlanIsCreated()
    ensures CreatePlan(EMPTY, NEAR_STOP, FAR, CAUTIOUS) == Success(Books(map[PlanOf("c") := FAR_PLAN], [], []))
  {
    hide LevelsOf;
    hide PreviewOf;
    hide Blocked;
    hide PlanRequestOf;
    FarLevels();
    FarIsNotBlocked();
    RequestIsLevels(EMPTY.positions, NEAR_STOP, FAR, CAUTIOUS);
  }

  lemma NoOtherRisk(positions: map<PositionId, Position>)
    requires positions.Keys <= {PlanOf("c")}
    ensures OtherRisk(positions, PlanOf("c"), CAUTIOUS) == 0.0
  {
    assert Risks(Items(positions, CAUTIOUS) - {PlanOf("c")}) == map[];
  }

  lemma FilledInRisk()
    ensures var levels := LevelsOf(NEAR_STOP, FIFTY, CAUTIOUS);
      PlanNeedsFill(FAR_PLAN, levels) && RowRisk(Replanned(FAR_PLAN, levels), CAUTIOUS) == 249950.0
  {
    NearStopSizing();
    assert Round6(4999.0) == 4999.0 && Round6(249950.0) == 249950.0;
    hide SizingOf;
  }

  /** It happens on a ledger two requests reach: the second shows a risk of 50 with the
      candidate's own levels and is not blocked; the plan keeps its far ones, so that the
      portfolio is not the one shown and its risk of 249950 breaks the budget. */
  lemma KeptLevelsBreakTheBudget()
    ensures var first := CreatePlan(EMPTY, NEAR_STOP, FAR, CAUTIOUS);
      && first.Success?
      && var shown, second :=
           PreviewOf(first.value.positions, NEAR_STOP, FIFTY, CAUTIOUS).planned,
           CreatePlan(first.value, NEAR_STOP, FIFTY, CAUTIOUS);
         && shown.totalRisk == 50.0 && second.Success?
         && TotalRisk(Items(second.value.positions, CAUTIOUS)) == 249950.0 > BudgetLimit(CAUTIOUS)
         && Summarized(Items(second.value.positions, CAUTIOUS), CAUTIOUS) != shown
  {
    var s := Books(map[PlanOf("c") := FAR_PLAN], [], []);
    FarPlanIsCreated();
    NearStopSizing();
    NoOtherRisk(s.positions);
    FilledInRisk();
    PreviewedRisk(s.positions, NEAR_STOP, FIFTY, CAUTIOUS);
    OverThePlan(s, NEAR_STOP, FIFTY, CAUTIOUS);
    assert InBudget(50.0, CAUTIOUS);
    hide PreviewOf;
    hide CreatePlan;
    hide SizingOf;
    hide LevelsOf;
    hide OtherRisk;
    hide RowRisk;
    assert Summarized(Items(CreatePlan(s, NEAR_STOP, FIFTY, CAUTIOUS).value.positions, CAUTIOUS), CAUTIOUS).totalRisk
        == 249950.0;
  }
}
