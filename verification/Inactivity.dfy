/** The inactivity evaluator and the purchase-cycle pilot on top of it, over real arithmetic. */
module Inactivity {
  import opened Prelude

  datatype Kind = PurchaseOverdue | ChurnRisk

  datatype Reason =
    | Eligible
    | NoValidPurchaseDays
    | InsufficientHistory
    | IrregularPurchasePattern
    | IntervalTooLong
    | SourceUnreliable

  /** What the feature query knows about one client; every statistic may be missing. */
  datatype Features = Features(
    client: Text, name: Text, phones: seq<Text>, last: Option<Day>,
    purchaseDays: nat, gaps: nat, span: nat,
    median: Option<real>, q75: Option<real>, mad: Option<real>, reference: real)

  datatype Components = Components(severity: real, value: real, loss: real)

  datatype Metrics = Metrics(days: Option<int>, overdue: Option<int>, churn: Option<int>, components: Components)

  /** `score` is in hundredths and `confidence` in ten-thousandths, the stored precision. */
  datatype Decision = Decision(eligible: bool, reason: Reason, kind: Option<Kind>,
                               score: int, confidence: int, metrics: Metrics)

  const MIN_DAYS := 8
  const MIN_GAPS := 7
  const MIN_SPAN := 56
  const MAX_DISPERSION := 0.75
  const MAX_INTERVAL := 60.0
  const VALUE_CEILING := 300000.0
  const LOSS_CEILING := 30000.0
  const PILOT_MIN_DAYS := 3
  const PILOT_MIN_GAPS := 2

  function Ceil(x: real): int
  {
    -((-x).Floor)
  }

  function Stat(x: Option<real>): real
  {
    if x.Some? then x.value else 0.0
  }

  function MinR(a: real, b: real): real { if a <= b then a else b }

  function MaxR(a: real, b: real): real { if a >= b then a else b }

  function Clamp(x: real): real
  {
    MinR(MaxR(x, 0.0), 1.0)
  }

  /** Nearest integer, ties to even. */
  function Round(x: real): int
  {
    var low := x.Floor;
    var rest := x - low as real;
    if rest < 0.5 || (rest == 0.5 && low % 2 == 0) then low else low + 1
  }

  function OverdueThreshold(mid: real, q75: real): int
  {
    Max(Max(Ceil(1.5 * mid), Ceil(q75) + 2), Ceil(mid) + 2)
  }

  function ChurnThreshold(mid: real, q75: real): int
  {
    Max(Max(Ceil(3.0 * mid), Ceil(q75) + 7), 14)
  }

  function LegacyReason(f: Features, healthy: bool): Reason
  {
    var mid := Stat(f.median);
    if !healthy then SourceUnreliable
    else if f.last.None? || f.purchaseDays == 0 then NoValidPurchaseDays
    else if f.purchaseDays < MIN_DAYS || f.gaps < MIN_GAPS || f.span < MIN_SPAN || mid <= 0.0 then InsufficientHistory
    else if Stat(f.mad) / MaxR(mid, 1.0) > MAX_DISPERSION then IrregularPurchasePattern
    else if mid > MAX_INTERVAL then IntervalTooLong
    else Eligible
  }

  /** The three score components; `log1p` is the only transcendental function of the source. */
  function ScoreComponents(f: Features, days: Option<int>, log1p: real -> real): Components
    requires log1p(VALUE_CEILING) > 0.0
  {
    var mid := Stat(f.median);
    var ratio := if days.Some? && mid != 0.0 then days.value as real / mid else 0.0;
    var daily := MaxR(f.reference, 0.0) / 180.0;
    var elapsed := if days.Some? then days.value as real else 0.0;
    Components(
      Clamp((ratio - 1.0) / 2.0),
      Clamp(log1p(daily * 28.0) / log1p(VALUE_CEILING)),
      Clamp(daily * MaxR(elapsed - mid, 0.0) / LOSS_CEILING))
  }

  function Score(c: Components): int
  {
    Round(100.0 * (100.0 * (0.5 * c.severity + 0.3 * c.value + 0.2 * c.loss)))
  }

  function Confidence(f: Features, confirmed: bool): int
  {
    var h := MinR(f.gaps as real / 20.0, 1.0);
    var r := MaxR(0.0, 1.0 - Stat(f.mad) / MaxR(Stat(f.median), 1.0));
    var a := MinR(f.span as real / 180.0, 1.0);
    var c := if confirmed then 1.0 else 0.0;
    Round(10000.0 * (0.35 * h + 0.35 * r + 0.20 * c + 0.10 * a))
  }

  function Evaluate(f: Features, asOf: Day, healthy: bool, confirmed: bool, log1p: real -> real): Decision
    requires log1p(VALUE_CEILING) > 0.0
  {
    var days := if f.last.Some? then Some(asOf - f.last.value) else None;
    var mid := Stat(f.median);
    var reason := LegacyReason(f, healthy);
    var overdue := if mid != 0.0 then Some(OverdueThreshold(mid, Stat(f.q75))) else None;
    var churn := if mid != 0.0 then Some(ChurnThreshold(mid, Stat(f.q75))) else None;
    var kind :=
      if reason != Eligible then None
      else if days.value >= churn.value then Some(ChurnRisk)
      else if days.value >= overdue.value then Some(PurchaseOverdue)
      else None;
    var components := ScoreComponents(f, days, log1p);
    Decision(reason == Eligible, reason, kind, if kind.Some? then Score(components) else 0,
             Confidence(f, confirmed), Metrics(days, overdue, churn, components))
  }

  /** The pilot keeps the quality and score definitions and replaces eligibility and threshold. */
  function EvaluatePilot(f: Features, asOf: Day, healthy: bool, confirmed: bool, log1p: real -> real): Decision
    requires log1p(VALUE_CEILING) > 0.0
  {
    var mid := Stat(f.median);
    var validCycle := mid > 0.0;
    var base := Evaluate(if validCycle then f else f.(median := None), asOf, healthy, confirmed, log1p);
    var reason :=
      if !healthy then SourceUnreliable
      else if f.last.None? || f.purchaseDays == 0 then NoValidPurchaseDays
      else if f.purchaseDays < PILOT_MIN_DAYS || f.gaps < PILOT_MIN_GAPS || !validCycle then InsufficientHistory
      else Eligible;
    var threshold := if validCycle then Some(mid.Floor + 1) else None;
    var active := reason == Eligible && asOf - f.last.value >= threshold.value;
    base.(eligible := reason == Eligible, reason := reason,
          kind := if active then Some(ChurnRisk) else None,
          score := if active then Score(base.metrics.components) else 0,
          metrics := base.metrics.(overdue := None, churn := threshold))
  }

  predicate NonNegative(f: Features)
  {
    Stat(f.median) >= 0.0 && Stat(f.q75) >= 0.0 && Stat(f.mad) >= 0.0
  }

  function Level(kind: Option<Kind>): int
  {
    match kind
    case None => 0
    case Some(PurchaseOverdue) => 1
    case Some(ChurnRisk) => 2
  }

  // ---------------------------------------------------------------- properties

  lemma ThresholdsOrdered(mid: real, q75: real)
    requires mid > 0.0
    ensures OverdueThreshold(mid, q75) <= ChurnThreshold(mid, q75)
  {
    if Ceil(mid) + 2 > 14 {
      assert mid > 12.0;
    }
  }

  /** Whatever the statistics, a signal needs eligibility and eligibility needs a purchase: the
      reconciliation never reads a missing last purchase date. */
  lemma EligibleHasPurchase(f: Features, asOf: Day, healthy: bool, confirmed: bool, log1p: real -> real)
    requires log1p(VALUE_CEILING) > 0.0
    ensures Meaningful(f, Evaluate(f, asOf, healthy, confirmed, log1p))
    ensures Meaningful(f, EvaluatePilot(f, asOf, healthy, confirmed, log1p))
  {
  }

  predicate Meaningful(f: Features, d: Decision)
  {
    (d.eligible ==> f.last.Some?) && (d.kind.Some? ==> d.eligible)
  }

  /** With the same history, a later day can only escalate the legacy signal. */
  lemma OnlyEscalates(f: Features, d: Day, e: Day, healthy: bool, confirmed: bool, log1p: real -> real)
    requires log1p(VALUE_CEILING) > 0.0 && d <= e
    ensures Level(Evaluate(f, d, healthy, confirmed, log1p).kind) <= Level(Evaluate(f, e, healthy, confirmed, log1p).kind)
  {
    if LegacyReason(f, healthy) == Eligible {
      ThresholdsOrdered(Stat(f.median), Stat(f.q75));
    }
  }

  /** The pilot signals exactly the eligible clients whose pause is longer than their median cycle. */
  lemma PilotRule(f: Features, asOf: Day, healthy: bool, confirmed: bool, log1p: real -> real)
    requires log1p(VALUE_CEILING) > 0.0
    ensures var d := EvaluatePilot(f, asOf, healthy, confirmed, log1p);
      d.kind == Some(ChurnRisk) <==> d.eligible && (asOf - f.last.value) as real > Stat(f.median)
  {
    var d := EvaluatePilot(f, asOf, healthy, confirmed, log1p);
    if d.eligible {
      var days, low := asOf - f.last.value, Stat(f.median).Floor;
      assert days >= low + 1 <==> days as real > Stat(f.median);
    }
  }

  lemma RoundBetween(x: real, low: int, high: int)
    requires low as real <= x <= high as real
    ensures low <= Round(x) <= high
  {
  }

  /** Scores lie in 0..100 and confidence in 0..1; without confirmed coverage the best possible
      confidence is 0.8. */
  lemma ScoresBounded(f: Features, asOf: Day, healthy: bool, confirmed: bool, log1p: real -> real)
    requires log1p(VALUE_CEILING) > 0.0
    requires NonNegative(f)
    ensures var d := Evaluate(f, asOf, healthy, confirmed, log1p);
      0 <= d.score <= 10000 && 0 <= d.confidence <= (if confirmed then 10000 else 8000)
    ensures var d := EvaluatePilot(f, asOf, healthy, confirmed, log1p);
      0 <= d.score <= 10000 && 0 <= d.confidence <= (if confirmed then 10000 else 8000)
  {
    var cycle := if Stat(f.median) > 0.0 then f else f.(median := None);
    var days := if f.last.Some? then Some(asOf - f.last.value) else None;
    ScoreBounded(ScoreComponents(f, days, log1p));
    ScoreBounded(ScoreComponents(cycle, days, log1p));
    ConfidenceBounded(f, confirmed);
    ConfidenceBounded(cycle, confirmed);
  }

  lemma ScoreBounded(c: Components)
    requires 0.0 <= c.severity <= 1.0 && 0.0 <= c.value <= 1.0 && 0.0 <= c.loss <= 1.0
    ensures 0 <= Score(c) <= 10000
  {
    RoundBetween(100.0 * (100.0 * (0.5 * c.severity + 0.3 * c.value + 0.2 * c.loss)), 0, 10000);
  }

  lemma ConfidenceBounded(f: Features, confirmed: bool)
    requires NonNegative(f)
    ensures 0 <= Confidence(f, confirmed) <= (if confirmed then 10000 else 8000)
  {
    var h := MinR(f.gaps as real / 20.0, 1.0);
    var dispersion := Stat(f.mad) / MaxR(Stat(f.median), 1.0);
    assert dispersion >= 0.0;
    var r := MaxR(0.0, 1.0 - dispersion);
    var a := MinR(f.span as real / 180.0, 1.0);
    var c := if confirmed then 1.0 else 0.0;
    RoundBetween(10000.0 * (0.35 * h + 0.35 * r + 0.20 * c + 0.10 * a), 0, if confirmed then 10000 else 8000);
  }
}
