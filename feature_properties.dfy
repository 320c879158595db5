/** Properties of the feature record that relate several calls: role symmetry
    (recording a match with its sides the other way round changes no feature),
    antisymmetry of the deltas under swapping a fixture's teams, the cold-start
    record, what the two "performance" fields average, and the inclusion of a
    training row's own match in its own features. */
module FeatureProperties {
  import opened Schemas
  import opened FeatureBuilding

  // ---------------------------------------------------------------------------
  // Recording a match from the other side
  // ---------------------------------------------------------------------------

  function SwapPair(p: PairStat): PairStat
  {
    PairStat(p.away, p.home)
  }

  function MirrorStats(s: MatchStats): MatchStats
  {
    MatchStats(SwapPair(s.corners), SwapPair(s.shots), SwapPair(s.yellow_cards), SwapPair(s.xg))
  }

  /** The same match with home and away exchanged: teams, scores and every
      statistics pair. */
  function Mirror(row: MatchRow): MatchRow
  {
    row.(home_team := row.away_team, away_team := row.home_team,
         home_score := row.away_score, away_score := row.home_score,
         stats := MirrorStats(row.stats))
  }

  function MirrorAll(rows: seq<MatchRow>): (m: seq<MatchRow>)
    ensures |m| == |rows|
    ensures forall i :: 0 <= i < |rows| ==> m[i] == Mirror(rows[i])
  {
    seq(|rows|, i requires 0 <= i < |rows| => Mirror(rows[i]))
  }

  /** No team is recorded as playing itself. */
  predicate NoSelfMatches(rows: seq<MatchRow>)
  {
    forall r :: r in rows ==> r.home_team != r.away_team
  }

  /** Reading a column of the mirrored statistics reads the other side's column. */
  lemma StatMirror(s: MatchStats, c: Column)
    ensures Stat(MirrorStats(s), c) == Stat(s, Column(c.metric, Flip(c.side)))
  {
  }

  lemma {:induction false} HistoryMirror(rows: seq<MatchRow>, team: string)
    ensures History(MirrorAll(rows), team) == MirrorAll(History(rows, team))
  {
    if rows != [] {
      assert MirrorAll(rows) == [Mirror(rows[0])] + MirrorAll(rows[1..]);
      HistoryMirror(rows[1..], team);
      if Involves(rows[0], team) {
        assert MirrorAll([rows[0]] + History(rows[1..], team))
            == [Mirror(rows[0])] + MirrorAll(History(rows[1..], team));
      }
    }
  }

  /** A match picks the same value for a team whichever way round it is recorded,
      as long as the two columns are the two sides of one metric. */
  lemma RoleValueMirror(row: MatchRow, team: string, m: Metric, s: Side)
    requires Involves(row, team) && row.home_team != row.away_team
    ensures RoleValue(Mirror(row), team, Column(m, s), Column(m, Flip(s)))
         == RoleValue(row, team, Column(m, s), Column(m, Flip(s)))
  {
    StatMirror(row.stats, Column(m, s));
    StatMirror(row.stats, Column(m, Flip(s)));
  }

  lemma {:induction false} InsertByDateMirror(x: MatchRow, s: seq<MatchRow>)
    ensures InsertByDate(Mirror(x), MirrorAll(s)) == MirrorAll(InsertByDate(x, s))
  {
    if s != [] && x.date < s[0].date {
      assert MirrorAll(s)[1..] == MirrorAll(s[1..]);
      InsertByDateMirror(x, s[1..]);
      assert MirrorAll([s[0]] + InsertByDate(x, s[1..]))
          == [Mirror(s[0])] + MirrorAll(InsertByDate(x, s[1..]));
    } else {
      assert MirrorAll([x] + s) == [Mirror(x)] + MirrorAll(s);
    }
  }

  /** Sorting by date commutes with recording every match the other way round. */
  lemma {:induction false} SortByDateDescMirror(s: seq<MatchRow>)
    ensures SortByDateDesc(MirrorAll(s)) == MirrorAll(SortByDateDesc(s))
  {
    if s != [] {
      assert MirrorAll(s)[1..] == MirrorAll(s[1..]);
      SortByDateDescMirror(s[1..]);
      InsertByDateMirror(s[0], SortByDateDesc(s[1..]));
    }
  }

  lemma LastNMirror(rows: seq<MatchRow>, team: string, n: nat)
    ensures LastN(MirrorAll(rows), team, n) == MirrorAll(LastN(rows, team, n))
  {
    var h := History(rows, team);
    HistoryMirror(rows, team);
    SortByDateDescMirror(h);
    var sorted := SortByDateDesc(h);
    var k := if n < |sorted| then n else |sorted|;
    assert MirrorAll(sorted)[..k] == MirrorAll(sorted[..k]);
  }

  /** A match earns a team the same points whichever way round it is recorded. */
  lemma PointsMirror(row: MatchRow, team: string)
    requires Involves(row, team) && row.home_team != row.away_team
    ensures Points(Mirror(row), team) == Points(row, team)
  {
  }

  // ---------------------------------------------------------------------------
  // Recording each match either way round
  // ---------------------------------------------------------------------------

  /** `b` is `a` with any selection of its matches recorded the other way round. */
  predicate Rerecorded(a: seq<MatchRow>, b: seq<MatchRow>)
  {
    |a| == |b| && forall i :: 0 <= i < |a| ==> b[i] == a[i] || b[i] == Mirror(a[i])
  }

  /** Mirroring every match is one way of re-recording the table. */
  lemma MirrorAllRerecorded(rows: seq<MatchRow>)
    ensures Rerecorded(rows, MirrorAll(rows))
  {
  }

  lemma RerecordedTail(a: seq<MatchRow>, b: seq<MatchRow>)
    requires Rerecorded(a, b) && a != []
    ensures Rerecorded(a[1..], b[1..])
  {
    forall i | 0 <= i < |a| - 1
      ensures b[1..][i] == a[1..][i] || b[1..][i] == Mirror(a[1..][i])
    {
      assert b[1..][i] == b[i + 1] && a[1..][i] == a[i + 1];
    }
  }

  lemma RerecordedCons(x: MatchRow, y: MatchRow, a: seq<MatchRow>, b: seq<MatchRow>)
    requires y == x || y == Mirror(x)
    requires Rerecorded(a, b)
    ensures Rerecorded([x] + a, [y] + b)
  {
    forall i | 0 <= i < |a| + 1
      ensures ([y] + b)[i] == ([x] + a)[i] || ([y] + b)[i] == Mirror(([x] + a)[i])
    {
      if i > 0 {
        assert ([y] + b)[i] == b[i - 1] && ([x] + a)[i] == a[i - 1];
      }
    }
  }

  /** Re-recording matches keeps the history's rows in place, each re-recorded as in
      the table. */
  lemma {:induction false} HistoryRerecorded(a: seq<MatchRow>, b: seq<MatchRow>, team: string)
    requires Rerecorded(a, b)
    ensures Rerecorded(History(a, team), History(b, team))
  {
    if a != [] {
      RerecordedTail(a, b);
      HistoryRerecorded(a[1..], b[1..], team);
      assert Involves(b[0], team) == Involves(a[0], team);
      if Involves(a[0], team) {
        RerecordedCons(a[0], b[0], History(a[1..], team), History(b[1..], team));
      }
    }
  }

  /** Insertion compares dates only, which re-recording keeps. */
  lemma {:induction false} InsertByDateRerecorded(x: MatchRow, y: MatchRow, a: seq<MatchRow>, b: seq<MatchRow>)
    requires y == x || y == Mirror(x)
    requires Rerecorded(a, b)
    ensures Rerecorded(InsertByDate(x, a), InsertByDate(y, b))
  {
    if a != [] && x.date < a[0].date {
      assert b[0].date == a[0].date;
      RerecordedTail(a, b);
      InsertByDateRerecorded(x, y, a[1..], b[1..]);
      RerecordedCons(a[0], b[0], InsertByDate(x, a[1..]), InsertByDate(y, b[1..]));
    } else {
      RerecordedCons(x, y, a, b);
    }
  }

  lemma {:induction false} SortByDateDescRerecorded(a: seq<MatchRow>, b: seq<MatchRow>)
    requires Rerecorded(a, b)
    ensures Rerecorded(SortByDateDesc(a), SortByDateDesc(b))
  {
    if a != [] {
      RerecordedTail(a, b);
      SortByDateDescRerecorded(a[1..], b[1..]);
      InsertByDateRerecorded(a[0], b[0], SortByDateDesc(a[1..]), SortByDateDesc(b[1..]));
    }
  }

  /** The latest-n rows of a re-recorded table are the same matches, re-recorded. */
  lemma LastNRerecorded(a: seq<MatchRow>, b: seq<MatchRow>, team: string, n: nat)
    requires Rerecorded(a, b)
    ensures Rerecorded(LastN(a, team, n), LastN(b, team, n))
  {
    HistoryRerecorded(a, b, team);
    SortByDateDescRerecorded(History(a, team), History(b, team));
  }

  /** Role symmetry of the averages: a team's average of a metric does not depend on
      which side each of its matches was recorded on, match by match. */
  lemma TeamAverageRerecorded(a: seq<MatchRow>, b: seq<MatchRow>, team: string, m: Metric, s: Side)
    requires NoSelfMatches(a) && Rerecorded(a, b)
    ensures TeamAverage(b, team, Column(m, s), Column(m, Flip(s)))
         == TeamAverage(a, team, Column(m, s), Column(m, Flip(s)))
  {
    var ha := History(a, team);
    var hb := History(b, team);
    HistoryRerecorded(a, b, team);
    HistoryMembers(a, team);
    var va := RoleValues(ha, team, Column(m, s), Column(m, Flip(s)));
    var vb := RoleValues(hb, team, Column(m, s), Column(m, Flip(s)));
    forall i | 0 <= i < |ha| ensures vb[i] == va[i] {
      assert ha[i] in ha;
      RoleValueMirror(ha[i], team, m, s);
    }
    assert va == vb;
  }

  /** Role symmetry of the form score, match by match: the date sort picks the same
      matches, and each earns the team the same points in either recording. */
  lemma FormLast5Rerecorded(a: seq<MatchRow>, b: seq<MatchRow>, team: string)
    requires NoSelfMatches(a) && Rerecorded(a, b)
    ensures FormLast5(b, team) == FormLast5(a, team)
  {
    var la := LastN(a, team, FormWindow);
    var lb := LastN(b, team, FormWindow);
    LastNRerecorded(a, b, team, FormWindow);
    HistoryMembers(a, team);
    var pa := PointsOf(la, team);
    var pb := PointsOf(lb, team);
    forall i | 0 <= i < |la| ensures pb[i] == pa[i] {
      assert la[i] in la;
      PointsMirror(la[i], team);
    }
    assert pa == pb;
  }

  /** Role symmetry of the averages for the table mirrored as a whole. */
  lemma TeamAverageMirror(rows: seq<MatchRow>, team: string, m: Metric, s: Side)
    requires NoSelfMatches(rows)
    ensures TeamAverage(MirrorAll(rows), team, Column(m, s), Column(m, Flip(s)))
         == TeamAverage(rows, team, Column(m, s), Column(m, Flip(s)))
  {
    MirrorAllRerecorded(rows);
    TeamAverageRerecorded(rows, MirrorAll(rows), team, m, s);
  }

  /** Role symmetry of the form score for the table mirrored as a whole. */
  lemma FormLast5Mirror(rows: seq<MatchRow>, team: string)
    requires NoSelfMatches(rows)
    ensures FormLast5(MirrorAll(rows), team) == FormLast5(rows, team)
  {
    MirrorAllRerecorded(rows);
    FormLast5Rerecorded(rows, MirrorAll(rows), team);
  }

  /** Role symmetry of the whole record, match by match: recording any selection of
      the table's matches with their sides the other way round yields the same
      features for every fixture. */
  lemma FeaturesRerecorded(a: seq<MatchRow>, b: seq<MatchRow>, fx: Fixture)
    requires NoSelfMatches(a) && Rerecorded(a, b)
    ensures FeaturesFor(b, fx) == FeaturesFor(a, fx)
  {
    var teams := [fx.home_team, fx.away_team];
    forall t | t in teams
      ensures TeamAverage(b, t, CornersHome, CornersAway) == TeamAverage(a, t, CornersHome, CornersAway)
      ensures TeamAverage(b, t, ShotsHome, ShotsAway) == TeamAverage(a, t, ShotsHome, ShotsAway)
      ensures TeamAverage(b, t, ShotsAway, ShotsHome) == TeamAverage(a, t, ShotsAway, ShotsHome)
      ensures TeamAverage(b, t, YellowCardsHome, YellowCardsAway) == TeamAverage(a, t, YellowCardsHome, YellowCardsAway)
      ensures TeamAverage(b, t, XgHome, XgAway) == TeamAverage(a, t, XgHome, XgAway)
      ensures FormLast5(b, t) == FormLast5(a, t)
    {
      TeamAverageRerecorded(a, b, t, Corners, Home);
      TeamAverageRerecorded(a, b, t, Shots, Home);
      TeamAverageRerecorded(a, b, t, Shots, Away);
      TeamAverageRerecorded(a, b, t, YellowCards, Home);
      TeamAverageRerecorded(a, b, t, Xg, Home);
      FormLast5Rerecorded(a, b, t);
    }
    assert fx.home_team in teams && fx.away_team in teams;
  }

  /** Role symmetry of the whole record: recording every match of the table with its
      sides the other way round (teams, scores and statistics together) yields the
      same features for every fixture. */
  lemma FeaturesMirror(rows: seq<MatchRow>, fx: Fixture)
    requires NoSelfMatches(rows)
    ensures FeaturesFor(MirrorAll(rows), fx) == FeaturesFor(rows, fx)
  {
    MirrorAllRerecorded(rows);
    FeaturesRerecorded(rows, MirrorAll(rows), fx);
  }

  // ---------------------------------------------------------------------------
  // Swapping the two teams of a fixture
  // ---------------------------------------------------------------------------

  /** Swapping home and away negates every delta and exchanges the paired averages
      and form scores. The performance fields do not simply exchange: the swapped
      record's home performance is the original away team's shots average. With
      `home == away` the fixture is its own swap, so all four deltas are zero. */
  lemma FixtureSwap(rows: seq<MatchRow>, id: string, home: string, away: string)
    ensures var f := FeaturesFor(rows, Fixture(id, home, away));
            var g := FeaturesFor(rows, Fixture(id, away, home));
            && g.delta_corners == -f.delta_corners
            && g.delta_shots == -f.delta_shots
            && g.delta_xg == -f.delta_xg
            && g.delta_yellow_cards == -f.delta_yellow_cards
            && g.home_avg_corners == f.away_avg_corners && g.away_avg_corners == f.home_avg_corners
            && g.home_avg_shots == f.away_avg_shots && g.away_avg_shots == f.home_avg_shots
            && g.home_avg_yellow_cards == f.away_avg_yellow_cards && g.away_avg_yellow_cards == f.home_avg_yellow_cards
            && g.home_avg_xg == f.away_avg_xg && g.away_avg_xg == f.home_avg_xg
            && g.home_form_last5 == f.away_form_last5 && g.away_form_last5 == f.home_form_last5
            && g.home_home_performance == f.away_avg_shots
  {
  }

  /** Features depend on the two team names and the table only: fixtures that differ
      in their match id get the same numbers. */
  lemma FeaturesIgnoreMatchId(rows: seq<MatchRow>, id1: string, id2: string, home: string, away: string)
    ensures FeaturesFor(rows, Fixture(id1, home, away)).(match_id := id2)
         == FeaturesFor(rows, Fixture(id2, home, away))
  {
  }

  // ---------------------------------------------------------------------------
  // Cold start
  // ---------------------------------------------------------------------------

  /** A team absent from the table has an empty history. */
  lemma {:induction false} HistoryOfAbsentTeam(rows: seq<MatchRow>, team: string)
    requires forall r :: r in rows ==> !Involves(r, team)
    ensures History(rows, team) == []
  {
    if rows != [] {
      HistoryOfAbsentTeam(rows[1..], team);
    }
  }

  /** Two teams absent from the table get a record whose every average, form score,
      performance and delta is 0.0. */
  lemma ColdStartFeatures(rows: seq<MatchRow>, fx: Fixture)
    requires forall r :: r in rows ==> !Involves(r, fx.home_team) && !Involves(r, fx.away_team)
    ensures var f := FeaturesFor(rows, fx);
            && f.home_avg_corners == 0.0 && f.away_avg_corners == 0.0
            && f.home_avg_shots == 0.0 && f.away_avg_shots == 0.0
            && f.home_avg_yellow_cards == 0.0 && f.away_avg_yellow_cards == 0.0
            && f.home_avg_xg == 0.0 && f.away_avg_xg == 0.0
            && f.home_form_last5 == 0.0 && f.away_form_last5 == 0.0
            && f.home_home_performance == 0.0 && f.away_away_performance == 0.0
            && f.delta_corners == 0.0 && f.delta_shots == 0.0
            && f.delta_xg == 0.0 && f.delta_yellow_cards == 0.0
  {
    HistoryOfAbsentTeam(rows, fx.home_team);
    HistoryOfAbsentTeam(rows, fx.away_team);
  }

  // ---------------------------------------------------------------------------
  // What each average reads
  // ---------------------------------------------------------------------------

  /** The value of metric `m` for the side on which team `t` played. */
  function SideValue(row: MatchRow, t: string, m: Metric): real
  {
    Stat(row.stats, Column(m, if row.home_team == t then Home else Away))
  }

  /** The other team of a match. */
  function Opponent(row: MatchRow, team: string): string
  {
    if row.home_team == team then row.away_team else row.home_team
  }

  /** A team's averages read only the team's own side of each match; the away
      team's "away performance" reads, in every match of its history, the shots of
      the team it played against. */
  lemma AveragesReadOwnAndOpponentSides(rows: seq<MatchRow>, team: string, m: Metric)
    requires NoSelfMatches(rows)
    ensures var h := History(rows, team);
            && RoleValues(h, team, Column(m, Home), Column(m, Away))
               == seq(|h|, i requires 0 <= i < |h| => SideValue(h[i], team, m))
            && RoleValues(h, team, Column(m, Away), Column(m, Home))
               == seq(|h|, i requires 0 <= i < |h| => SideValue(h[i], Opponent(h[i], team), m))
  {
    var h := History(rows, team);
    HistoryMembers(rows, team);
    forall i | 0 <= i < |h|
      ensures h[i].home_team != h[i].away_team && Involves(h[i], team)
    {
      assert h[i] in h;
    }
  }

  // ---------------------------------------------------------------------------
  // A training row sees its own match
  // ---------------------------------------------------------------------------

  /** The history is not cut at the match date, so a training row's own match is in
      the history of both of its teams. */
  lemma OwnMatchInHistories(rows: seq<MatchRow>, i: nat)
    requires i < |rows|
    ensures rows[i] in History(rows, rows[i].home_team)
    ensures rows[i] in History(rows, rows[i].away_team)
    ensures History(rows, rows[i].home_team) != [] && History(rows, rows[i].away_team) != []
  {
    assert rows[i] in rows;
    HistoryMembers(rows, rows[i].home_team);
    HistoryMembers(rows, rows[i].away_team);
  }

  /** With a one-match table, the features of that match are its own statistics and
      its own result. */
  lemma OwnMatchFeatures(r: MatchRow)
    requires r.home_team != r.away_team
    ensures var f := FeaturesFor([r], FixtureOf(r));
            && f.home_avg_corners == r.stats.corners.home
            && f.away_avg_corners == r.stats.corners.away
            && f.delta_corners == r.stats.corners.home - r.stats.corners.away
            && f.home_form_last5 == Points(r, r.home_team) as real
            && f.away_form_last5 == Points(r, r.away_team) as real
  {
    assert History([r], r.home_team) == [r];
    assert History([r], r.away_team) == [r];
    assert RoleValues([r], r.home_team, CornersHome, CornersAway) == [r.stats.corners.home];
    assert RoleValues([r], r.away_team, CornersHome, CornersAway) == [r.stats.corners.away];
    assert LastN([r], r.home_team, FormWindow) == [r];
    assert LastN([r], r.away_team, FormWindow) == [r];
    forall v: real ensures Mean([v]) == v {
      assert Sum([v]) == v + Sum([]);
    }
    assert PointsOf([r], r.home_team) == [Points(r, r.home_team) as real];
    assert PointsOf([r], r.away_team) == [Points(r, r.away_team) as real];
  }

  // ---------------------------------------------------------------------------
  // Points
  // ---------------------------------------------------------------------------

  /** With both scores known, a win for one side is a loss for the other and a draw
      gives each side one point. */
  lemma PointsComplementary(row: MatchRow)
    requires row.home_team != row.away_team
    requires row.home_score.Some? && row.away_score.Some?
    ensures Points(row, row.home_team) + Points(row, row.away_team)
         == if row.home_score == row.away_score then 2 else 3
    ensures Points(row, row.home_team) == 3 <==> Points(row, row.away_team) == 0
  {
  }

  /** An unplayed match (a score missing) is worth no points to either side. */
  lemma MissingScoreGivesNoPoints(row: MatchRow, team: string)
    requires row.home_score.None? || row.away_score.None?
    ensures Points(row, team) == 0
  {
  }
}
