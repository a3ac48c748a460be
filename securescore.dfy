/**
 * The secure-score collector's derivations: the benchmark percentile and its label, the
 * improvement actions ordered by potential, and the seven-day trend.
 */
module SecureScore {
  import opened Wrappers
  import opened Seqs
  import opened Numeric
  import opened Sorting
  import opened Schemas

  // ------------------------------------------------------------------ percentile and label

  /** `_calculate_percentile`: a step function of the score. */
  function Percentile(score: real): (p: nat)
    ensures p in {95, 75, 50, 35, 20, 10}
    ensures p == 95 <==> score >= 80.0
    ensures p == 10 <==> score < 40.0
  {
    if score >= 80.0 then 95
    else if score >= 70.0 then 75
    else if score >= 60.0 then 50
    else if score >= 50.0 then 35
    else if score >= 40.0 then 20
    else 10
  }

  /** A higher score never has a lower percentile. */
  lemma PercentileMonotone(a: real, b: real)
    requires a <= b
    ensures Percentile(a) <= Percentile(b)
  {
  }

  /** Each percentile band is exactly one score interval. */
  lemma PercentileBands(score: real)
    ensures Percentile(score) == 75 <==> 70.0 <= score < 80.0
    ensures Percentile(score) == 50 <==> 60.0 <= score < 70.0
    ensures Percentile(score) == 35 <==> 50.0 <= score < 60.0
    ensures Percentile(score) == 20 <==> 40.0 <= score < 50.0
  {
  }

  /** `_get_comparison_label`. */
  function ComparisonLabel(percentile: int): (r: string)
    ensures r == "Top 10%" <==> percentile >= 90
    ensures r == "Bottom 25%" <==> percentile < 25
  {
    if percentile >= 90 then "Top 10%"
    else if percentile >= 75 then "Top 25%"
    else if percentile >= 50 then "Top 50%"
    else if percentile >= 25 then "Bottom 50%"
    else "Bottom 25%"
  }

  /** The label each band of the collected score ends up with: 80 and over is the top tenth, under 40 the bottom quarter. */
  lemma LabelOfScore(score: real)
    ensures ComparisonLabel(Percentile(score)) ==
      if score >= 80.0 then "Top 10%"
      else if score >= 70.0 then "Top 25%"
      else if score >= 60.0 then "Top 50%"
      else if score >= 50.0 then "Bottom 50%"
      else "Bottom 25%"
  {
  }

  // ------------------------------------------------------------------ improvement actions

  /** A control score; the score and the maximum may be unset. */
  datatype ControlScore = ControlScore(name: Option<string>, description: Option<string>, score: Option<real>, maxScore: Option<real>)

  /** `(max_score or 0) - (score or 0)`. */
  function Potential(c: ControlScore): real {
    c.maxScore.GetOr(0.0) - c.score.GetOr(0.0)
  }

  function HasPotential(c: ControlScore): bool { Potential(c) > 0.0 }

  datatype ImprovementAction = ImprovementAction(name: Option<string>, description: Option<string>,
                                                 currentScore: Option<real>, maxScore: Option<real>, potentialImprovement: real)

  function ActionRow(c: ControlScore): ImprovementAction {
    ImprovementAction(c.name, c.description, c.score, c.maxScore, Potential(c))
  }

  function ActionPotential(a: ImprovementAction): real { a.potentialImprovement }

  /** `sort(key=potential_improvement, reverse=True)`. */
  function ByPotentialDesc(): (ImprovementAction, ImprovementAction) -> bool { ByKeyDesc(ActionPotential) }

  /** `get_improvement_actions`: keep the controls with room to improve, then sort them by potential, largest first. */
  method GetImprovementActions(controls: seq<ControlScore>) returns (actions: seq<ImprovementAction>)
    ensures actions == SortBy(MapSeq(Filter(controls, HasPotential), ActionRow), ByPotentialDesc())
  {
    actions := [];
    for i := 0 to |controls|
      invariant actions == MapSeq(Filter(controls[..i], HasPotential), ActionRow)
    {
      FilterMapStep(controls, HasPotential, ActionRow, i);
      var control := controls[i];
      var potential := control.maxScore.GetOr(0.0) - control.score.GetOr(0.0);
      if potential > 0.0 {
        actions := actions + [ImprovementAction(control.name, control.description, control.score, control.maxScore, potential)];
      }
    }
    assert controls[..|controls|] == controls;
    actions := SortBy(actions, ByPotentialDesc());
  }

  /**
   * The actions are a permutation of the rows of the controls with positive potential,
   * each action's potential is positive and is its control's, potentials never increase
   * along the list, and controls of equal potential keep their order.
   */
  lemma ImprovementActionsFacts(controls: seq<ControlScore>)
    ensures var rows := MapSeq(Filter(controls, HasPotential), ActionRow);
      var actions := SortBy(rows, ByPotentialDesc());
      multiset(actions) == multiset(rows) &&
      (forall c :: c in controls && HasPotential(c) ==> ActionRow(c) in actions) &&
      (forall k :: 0 <= k < |actions| ==>
        actions[k].potentialImprovement > 0.0 && exists c :: c in controls && ActionRow(c) == actions[k]) &&
      (forall i, j :: 0 <= i < j < |actions| ==> actions[i].potentialImprovement >= actions[j].potentialImprovement) &&
      (forall e :: SameRank(actions, e, ByPotentialDesc()) == SameRank(rows, e, ByPotentialDesc()))
  {
    var kept := Filter(controls, HasPotential);
    var rows := MapSeq(kept, ActionRow);
    var actions := SortBy(rows, ByPotentialDesc());
    PotentialSorted(rows);
    forall c | c in controls && HasPotential(c) ensures ActionRow(c) in actions {
      FilterMembers(controls, HasPotential, c);
      var k :| 0 <= k < |kept| && kept[k] == c;
      assert rows[k] == ActionRow(c);
      SortMembers(rows, ByPotentialDesc(), ActionRow(c));
    }
    forall k | 0 <= k < |actions|
      ensures actions[k].potentialImprovement > 0.0 && exists c :: c in controls && ActionRow(c) == actions[k]
    {
      SortMembers(rows, ByPotentialDesc(), actions[k]);
      var j :| 0 <= j < |rows| && rows[j] == actions[k];
      FilterMembers(controls, HasPotential, kept[j]);
    }
  }

  /** Sorting by potential, largest first, permutes the rows, orders them and keeps ties in order. */
  lemma PotentialSorted(rows: seq<ImprovementAction>)
    ensures var sorted := SortBy(rows, ByPotentialDesc());
      multiset(sorted) == multiset(rows) &&
      (forall i, j :: 0 <= i < j < |sorted| ==> sorted[i].potentialImprovement >= sorted[j].potentialImprovement) &&
      (forall e :: SameRank(sorted, e, ByPotentialDesc()) == SameRank(rows, e, ByPotentialDesc()))
  {
    var sorted := SortBy(rows, ByPotentialDesc());
    ByKeyTotal(ActionPotential);
    SortPermutes(rows, ByPotentialDesc());
    SortSorted(rows, ByPotentialDesc());
    forall i, j | 0 <= i < j < |sorted| ensures sorted[i].potentialImprovement >= sorted[j].potentialImprovement {
      assert SortedBy(sorted, ByPotentialDesc());
      assert ByPotentialDesc()(sorted[i], sorted[j]);
      assert ActionPotential(sorted[j]) <= ActionPotential(sorted[i]);
    }
    forall e ensures SameRank(sorted, e, ByPotentialDesc()) == SameRank(rows, e, ByPotentialDesc()) {
      SortStable(rows, e, ByPotentialDesc());
    }
  }

  // ------------------------------------------------------------------ trend

  datatype MetricTrend = MetricTrend(direction: TrendDirection, changeValue: real, changePercent: Option<real>, period: string)

  /**
   * `_calculate_trend`. `history` holds the stored scores newest first, or `None` when
   * reading them failed; without a history store there is no trend.
   */
  function Trend(hasHistoryStore: bool, history: Option<seq<real>>): Option<MetricTrend> {
    if !hasHistoryStore || history.None? then None
    else if |history.value| < 2 then Some(MetricTrend(Stable, 0.0, None, "7d"))
    else
      var current, previous := history.value[0], history.value[|history.value| - 1];
      var change := current - previous;
      var changePercent := if previous > 0.0 then change / previous * 100.0 else 0.0;
      var direction := if change > 0.5 then Up else if change < -0.5 then Down else Stable;
      Some(MetricTrend(direction, Round1(change), Some(Round1(changePercent)), "7d"))
  }

  /**
   * No trend without a store or a readable history; stable and unchanged with fewer than
   * two points; otherwise the direction follows newest minus oldest with a half-point dead
   * band, the rounded change agrees with the direction, and the percentage is 0 when
   * the oldest score is not positive.
   */
  lemma TrendFacts(hasHistoryStore: bool, history: Option<seq<real>>)
    ensures Trend(hasHistoryStore, history).None? <==> !hasHistoryStore || history.None?
    ensures hasHistoryStore && history.Some? && |history.value| < 2 ==>
      Trend(hasHistoryStore, history) == Some(MetricTrend(Stable, 0.0, None, "7d"))
    ensures hasHistoryStore && history.Some? && |history.value| >= 2 ==>
      var h := history.value;
      var t := Trend(hasHistoryStore, history).value;
      var change := h[0] - h[|h| - 1];
      (t.direction == Up <==> change > 0.5) && (t.direction == Down <==> change < -0.5) &&
      (t.direction == Up ==> t.changeValue >= 0.5) && (t.direction == Down ==> t.changeValue <= -0.5) &&
      (t.direction == Stable ==> -0.5 <= t.changeValue <= 0.5) &&
      (h[|h| - 1] <= 0.0 ==> t.changePercent == Some(0.0)) && t.period == "7d"
  {
    Round1Tenths(5);
    Round1Tenths(-5);
    Round1Tenths(0);
    if hasHistoryStore && history.Some? && |history.value| >= 2 {
      var h := history.value;
      var change := h[0] - h[|h| - 1];
      if change > 0.5 {
        Round1Monotone(0.5, change);
      } else if change < -0.5 {
        Round1Monotone(change, -0.5);
      } else {
        Round1Monotone(-0.5, change);
        Round1Monotone(change, 0.5);
      }
    }
  }

  // ------------------------------------------------------------------ collected score

  datatype SecurityScore = SecurityScore(currentScore: real, maxScore: real, percentile: nat, trend: Option<MetricTrend>, comparisonLabel: string)

  /** `collect` (without its cache and the history write): the fetched score with its percentile, trend and label. */
  function SecurityScoreOf(currentScore: real, maxScore: real, trend: Option<MetricTrend>): SecurityScore {
    var percentile := Percentile(currentScore);
    SecurityScore(currentScore, maxScore, percentile, trend, ComparisonLabel(percentile))
  }
}
