/** The corners betting rule: a prediction's total corners is compared with a
    market line widened by a fixed margin on each side. */
module BusinessRules {
  import opened Schemas

  /** "over", "under" or "none". */
  datatype Suggestion = Over | Under | NoSuggestion

  /** The signal for one fixture. The market label is "Total Cantos " followed by
      the line, so the record keeps the line itself. */
  datatype BettingSignal = BettingSignal(
    match_id: string,
    home_team: string,
    away_team: string,
    market_line: real,
    suggestion: Suggestion)

  const DefaultLine: real := 9.5
  const Margin: real := 1.0

  /** Both sides' expected corners together; with non-negative predictions the
      total is at least either side's share. */
  function TotalCorners(pred: MatchPrediction): (t: real)
    ensures pred.predicted_corners_home >= 0.0 && pred.predicted_corners_away >= 0.0 ==>
              pred.predicted_corners_home <= t && pred.predicted_corners_away <= t
  {
    pred.predicted_corners_home + pred.predicted_corners_away
  }

  /** Over when the predicted total is above `line + 1.0`, under when it is below
      `line - 1.0`, no suggestion inside the band (both ends included). */
  function DeriveCornersSignal(pred: MatchPrediction, line: real := DefaultLine): (s: BettingSignal)
    ensures s.suggestion == Over <==> TotalCorners(pred) > line + 1.0
    ensures s.suggestion == Under <==> TotalCorners(pred) < line - 1.0
    ensures s.suggestion == NoSuggestion <==> line - 1.0 <= TotalCorners(pred) <= line + 1.0
    ensures s.match_id == pred.match_id && s.home_team == pred.home_team && s.away_team == pred.away_team
    ensures s.market_line == line
  {
    var total := TotalCorners(pred);
    var suggestion :=
      if total > line + Margin then Over
      else if total < line - Margin then Under
      else NoSuggestion;
    BettingSignal(pred.match_id, pred.home_team, pred.away_team, line, suggestion)
  }

  /** Under below no suggestion below over. */
  function Rank(s: Suggestion): nat
  {
    match s
    case Under => 0
    case NoSuggestion => 1
    case Over => 2
  }

  /** A larger predicted total never moves the suggestion towards under. */
  lemma SignalMonotoneInTotal(p: MatchPrediction, q: MatchPrediction, line: real)
    requires TotalCorners(p) <= TotalCorners(q)
    ensures Rank(DeriveCornersSignal(p, line).suggestion) <= Rank(DeriveCornersSignal(q, line).suggestion)
  {
  }

  /** A higher line never moves the suggestion towards over. */
  lemma SignalAntitoneInLine(p: MatchPrediction, line1: real, line2: real)
    requires line1 <= line2
    ensures Rank(DeriveCornersSignal(p, line2).suggestion) <= Rank(DeriveCornersSignal(p, line1).suggestion)
  {
  }

  /** With the default line of 9.5, over means more than 10.5 predicted corners and
      under means fewer than 8.5. */
  lemma DefaultLineBand(pred: MatchPrediction)
    ensures DeriveCornersSignal(pred).market_line == 9.5
    ensures DeriveCornersSignal(pred).suggestion == Over <==> TotalCorners(pred) > 10.5
    ensures DeriveCornersSignal(pred).suggestion == Under <==> TotalCorners(pred) < 8.5
  {
  }

  /** The suggestion reads the total only: exchanging the two sides' predictions
      leaves it as it was. */
  lemma SignalIgnoresSides(p: MatchPrediction, line: real)
    ensures var q := p.(predicted_corners_home := p.predicted_corners_away,
                        predicted_corners_away := p.predicted_corners_home);
            DeriveCornersSignal(q, line).suggestion == DeriveCornersSignal(p, line).suggestion
  {
  }
}
