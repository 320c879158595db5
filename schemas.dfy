/** Records shared by the feature builder, the betting rule and the ratio transforms:
    a joined match row (match metadata plus its statistics), a fixture to build
    features for, the fixed-shape feature record and a model prediction. */
module Schemas {

  datatype Option<T> = None | Some(value: T)

  /** The side of a fixture a team played on, or a statistics column belongs to. */
  datatype Side = Home | Away

  function Flip(s: Side): (t: Side)
    ensures t != s
  {
    if s == Home then Away else Home
  }

  /** The metrics the feature builder averages; each is stored as a `_home`/`_away` pair. */
  datatype Metric = Corners | Shots | YellowCards | Xg

  /** A statistics column such as `corners_home`: a metric and the side it was recorded for. */
  datatype Column = Column(metric: Metric, side: Side)

  const CornersHome := Column(Corners, Home)
  const CornersAway := Column(Corners, Away)
  const ShotsHome := Column(Shots, Home)
  const ShotsAway := Column(Shots, Away)
  const YellowCardsHome := Column(YellowCards, Home)
  const YellowCardsAway := Column(YellowCards, Away)
  const XgHome := Column(Xg, Home)
  const XgAway := Column(Xg, Away)

  /** One metric's home and away values for a match. */
  datatype PairStat = PairStat(home: real, away: real)

  /** The statistics of one match that the feature builder reads. */
  datatype MatchStats = MatchStats(corners: PairStat, shots: PairStat, yellow_cards: PairStat, xg: PairStat)

  /** Column lookup `row[column]` on the statistics part of a joined row. */
  function Stat(s: MatchStats, c: Column): real
  {
    var p := match c.metric
      case Corners => s.corners
      case Shots => s.shots
      case YellowCards => s.yellow_cards
      case Xg => s.xg;
    if c.side == Home then p.home else p.away
  }

  /** One row of the matches table left-joined with its statistics row on `match_id`.
      `date` is a day number, so its order is that of the ISO date strings.
      A score is absent for a fixture that has not been played. */
  datatype MatchRow = MatchRow(
    match_id: string,
    season: string,
    round_number: int,
    date: int,
    home_team: string,
    away_team: string,
    home_score: Option<int>,
    away_score: Option<int>,
    stats: MatchStats)

  /** What the feature builder reads from a row it builds features for. */
  datatype Fixture = Fixture(match_id: string, home_team: string, away_team: string)

  /** The fixture a joined row describes (the training driver passes whole rows). */
  function FixtureOf(row: MatchRow): Fixture
  {
    Fixture(row.match_id, row.home_team, row.away_team)
  }

  /** The feature record, one per fixture, with the same fields in the same order
      for training rows and next-round rows. */
  datatype MatchFeatures = MatchFeatures(
    match_id: string,
    home_team: string,
    away_team: string,
    home_avg_corners: real,
    away_avg_corners: real,
    home_avg_shots: real,
    away_avg_shots: real,
    home_avg_yellow_cards: real,
    away_avg_yellow_cards: real,
    home_avg_xg: real,
    away_avg_xg: real,
    home_form_last5: real,
    away_form_last5: real,
    home_home_performance: real,
    away_away_performance: real,
    delta_corners: real,
    delta_shots: real,
    delta_xg: real,
    delta_yellow_cards: real)

  /** A model's predicted statistics for one fixture. */
  datatype MatchPrediction = MatchPrediction(
    match_id: string,
    home_team: string,
    away_team: string,
    predicted_corners_home: real,
    predicted_corners_away: real,
    predicted_shots_home: real,
    predicted_shots_away: real,
    predicted_yellow_cards_home: real,
    predicted_yellow_cards_away: real,
    predicted_xg_home: real,
    predicted_xg_away: real)
}
