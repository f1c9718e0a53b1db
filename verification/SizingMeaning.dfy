/** What a previewed plan's size and its guardrails mean. */
module SizingMeaning {
  import opened Numbers
  import opened Rounding
  import opened Wrappers
  import opened PortfolioRisk
  import opened RiskMeaning
  import opened CandidatePlan

  /** The first of three numbers that is there and not zero; without one, the last. */
  predicate IsFirst(r: Option<real>, a: Option<real>, b: Option<real>, c: Option<real>) {
    r == (if a.Some? && a.value != 0.0 then a else if b.Some? && b.value != 0.0 then b else c)
  }

  /** Entry and stop are the request's, else the candidate's, else those of its plans; an armed
      confirmation goes before the candidate's own trigger. */
  lemma LevelsFallBack(c: Candidate, r: Request, t: Settings)
    ensures var z := SizingOf(c, r, t);
      && IsFirst(z.entryPrice, r.entryPrice, if c.armedTrigger.Some? then c.armedTrigger else c.entryTrigger,
                 c.planTrigger)
      && IsFirst(z.initialStop, r.initialStop, c.initialStop, c.planStop)
  {
    hide RiskPerUnit;
    hide RiskAmount;
    hide BaseQuantity;
    hide AdjustedQuantity;
  }

  /** The plan is scaled to a half above a volatility rank of 0.8, to three quarters from 0.6 on. */
  lemma ScaleTells(c: Candidate, r: Request, t: Settings)
    ensures var m := SizingOf(c, r, t).multiplier;
      && m in {1.0, 0.75, 0.5}
      && (m == 0.5 <==> c.volRank.Some? && c.volRank.value > 0.8)
      && (m == 1.0 <==> c.volRank.None? || c.volRank.value < 0.6)
  {
    hide RiskPerUnit;
    hide RiskAmount;
    hide BaseQuantity;
    hide AdjustedQuantity;
  }

  /** n is the largest whole number that is at most x. */
  predicate IsFloor(n: int, x: real) {
    n as real <= x < n as real + 1.0
  }

  /** A risk per share is the distance down to the stop; as many shares are suggested as fit the
      limit per trade whole, scaled and made whole again; they are planned unless the request
      says how many, and the plan risks them all. */
  predicate Sized(z: Sizing, r: Request, t: Settings) {
    var risk := z.riskPerUnit;
    && (risk.Some? <==> z.entryPrice.Some? && z.initialStop.Some? && z.initialStop.value < z.entryPrice.value)
    && (risk.Some? ==> Near(risk.value, z.entryPrice.value - z.initialStop.value, 1))
    && Near(z.maxRisk, Times(t.maxRiskPerTradePct, t.accountEquity), 1)
    && (z.base.Some? <==> risk.Some? && risk.value > 0.0)
    && (z.base.Some? ==>
          Times(risk.value, z.base.value as real) <= z.maxRisk < Times(risk.value, z.base.value as real + 1.0))
    && (z.suggested.Some? <==> z.base.Some?)
    && (z.suggested.Some? ==> IsFloor(z.suggested.value, Times(z.multiplier, z.base.value as real)))
    && z.planned == (if r.quantity.Some? then r.quantity
                     else if z.suggested.Some? && z.suggested.value > 0 then Some(z.suggested.value as real)
                     else None)
    && IsRisk(z.plannedRisk, z.entryPrice, z.initialStop, z.planned)
  }

  lemma BaseFits(maxRisk: real, risk: real)
    requires risk > 0.0
    ensures var n := Ratio(maxRisk, risk).Floor;
      Times(risk, n as real) <= maxRisk < Times(risk, n as real + 1.0)
  {
    var n := Ratio(maxRisk, risk).Floor;
    FitsExactly(maxRisk, risk, n);
    FitsExactly(maxRisk, risk, n + 1);
    assert (n + 1) as real == n as real + 1.0;
    hide Times;
    hide Ratio;
  }

  lemma SizeTells(c: Candidate, r: Request, t: Settings)
    ensures Sized(SizingOf(c, r, t), r, t)
  {
    var z := SizingOf(c, r, t);
    RiskIs(z.entryPrice, z.initialStop, z.planned);
    hide RiskAmount;
    hide IsRisk;
    hide EntryOf;
    hide StopOf;
    assert Times(t.accountEquity, t.maxRiskPerTradePct) == Times(t.maxRiskPerTradePct, t.accountEquity);
    if z.riskPerUnit.Some? && z.riskPerUnit.value > 0.0 {
      BaseFits(z.maxRisk, z.riskPerUnit.value);
      assert Times(z.base.value as real, z.multiplier) == Times(z.multiplier, z.base.value as real);
    }
    hide Ratio;
    hide Times;
    hide Round6;
    hide VolatilityMultiplier;
  }

  /** The distance to the stop as a share of a positive entry. */
  lemma DistanceTells(c: Candidate, r: Request, t: Settings)
    ensures var z := SizingOf(c, r, t);
      && (z.riskDistancePct.Some? <==> z.riskPerUnit.Some? && z.entryPrice.value > 0.0)
      && (z.riskDistancePct.Some? ==>
            IsShare(z.riskDistancePct.value, z.riskPerUnit.value, t.(accountEquity := z.entryPrice.value)))
  {
    var z := SizingOf(c, r, t);
    if z.riskPerUnit.Some? && z.entryPrice.value > 0.0 {
      ShareIs(z.riskPerUnit.value, t.(accountEquity := z.entryPrice.value));
    }
    hide IsShare;
    hide Round6;
    hide RiskAmount;
    hide EntryOf;
    hide StopOf;
  }

  /** When each notice on the levels is shown. */
  predicate LevelShown(notice: Notice, z: Sizing, t: Settings) {
    || (notice == Notice(Block, "missing_entry") && z.entryPrice.None?)
    || (notice == Notice(Block, "missing_stop") && z.initialStop.None?)
    || (notice == Notice(Block, "stop_not_below_entry")
        && z.entryPrice.Some? && z.initialStop.Some? && z.initialStop.value >= z.entryPrice.value)
    || (notice == Notice(Warning, "risk_distance_wide")
        && z.riskDistancePct.Some? && z.riskDistancePct.value > t.maxRiskDistancePct)
  }

  predicate ExposureShown(notice: Notice, activeCount: nat, planned: Summary, t: Settings) {
    || (notice == Notice(Warning, "max_open_positions_reached")
        && (activeCount >= t.maxOpenPositions || planned.activeCount >= t.maxOpenPositions))
    || (notice == Notice(Block, "portfolio_risk_budget_exceeded") && planned.totalRiskPct > t.maxTotalRiskPct)
  }

  predicate SizeShown(notice: Notice, c: Candidate, z: Sizing, t: Settings) {
    || (notice == Notice(Info, "shadow_only_paper_only")
        && c.validationStatus == Some("shadow_only") && t.shadowOnlyRequiresPaper)
    || (notice == Notice(Warning, "no_suggested_quantity") && z.suggested.Some? && z.suggested.value <= 0)
    || (notice == Notice(Warning, "max20d_lottery_risk_warning")
        && (c.lotteryRisk == Some("medium") || c.lotteryRisk == Some("high")))
    || (notice == Notice(Block, "quantity_exceeds_volatility_adjusted_size")
        && z.multiplier < 1.0 && z.planned.Some? && z.suggested.Some?
        && z.planned.value > z.suggested.value as real)
  }

  lemma LevelsShown(notice: Notice, z: Sizing, t: Settings)
    ensures notice in LevelGuardrails(z, t) <==> LevelShown(notice, z, t)
  {
  }

  lemma ExposuresShown(notice: Notice, activeCount: nat, planned: Summary, t: Settings)
    ensures notice in ExposureGuardrails(activeCount, planned, t) <==> ExposureShown(notice, activeCount, planned, t)
  {
  }

  lemma SizesShown(notice: Notice, c: Candidate, z: Sizing, t: Settings)
    ensures notice in SizeGuardrails(c, z, t) <==> SizeShown(notice, c, z, t)
  {
  }

  /** The guardrails shown: each under its own condition, and no others. */
  lemma GuardrailsTell(c: Candidate, z: Sizing, activeCount: nat, planned: Summary, t: Settings, notice: Notice)
    ensures notice in Guardrails(c, z, activeCount, planned, t) <==>
      LevelShown(notice, z, t) || ExposureShown(notice, activeCount, planned, t) || SizeShown(notice, c, z, t)
  {
    LevelsShown(notice, z, t);
    ExposuresShown(notice, activeCount, planned, t);
    SizesShown(notice, c, z, t);
    GuardrailsJoin(c, z, activeCount, planned, t);
    hide *;
  }

  /** The exit profile is the exit plan's; two strategies have one of their own without it. */
  lemma ProfileTells(c: Candidate)
    ensures var profile := ExitProfileOf(c);
      && (c.planProfile.Some? ==> profile == c.planProfile)
      && (c.planProfile.None? && c.strategyName == Some("etf_rotation_us_etf") ==>
            profile == Some("etf_rotation_trend"))
      && (c.planProfile.None? && c.strategyName == Some("oneil_core_us_etf") ==> profile == Some("momentum_leader"))
      && (profile.None? ==> c.planProfile.None?)
      && (profile.None? <== c.planProfile.None? && c.strategyName.None?)
      && (c.planProfile.None? && profile.Some? ==>
            c.strategyName in {Some("etf_rotation_us_etf"), Some("oneil_core_us_etf")})
  {
    assert |"etf_rotation_us_etf"| != |"oneil_core_us_etf"|;
  }
}
