/** The feature builder: a team's history in the joined match table, its latest
    matches by date, role-selected metric averages, a points-based form score, and
    the feature record assembled from them for a fixture. The pure selections are
    functions over the row sequence; the loops of the builder are methods of the
    `FeatureBuilder` class, each proved equal to the function that specifies it. */
module FeatureBuilding {
  import opened Schemas

  // ---------------------------------------------------------------------------
  // Team history
  // ---------------------------------------------------------------------------

  /** The team played in this row, at home or away. */
  predicate Involves(row: MatchRow, team: string)
  {
    row.home_team == team || row.away_team == team
  }

  /** The rows of the table in which `team` played, in table order. */
  function History(rows: seq<MatchRow>, team: string): (h: seq<MatchRow>)
    ensures |h| <= |rows|
  {
    if rows == [] then []
    else
      if Involves(rows[0], team) then [rows[0]] + History(rows[1..], team)
      else History(rows[1..], team)
  }

  /** The history holds exactly the rows of the table that involve the team. */
  lemma {:induction false} HistoryMembers(rows: seq<MatchRow>, team: string)
    ensures forall r :: r in History(rows, team) <==> r in rows && Involves(r, team)
  {
    if rows != [] {
      HistoryMembers(rows[1..], team);
      assert rows == [rows[0]] + rows[1..];
    }
  }

  /** The history of a concatenated table is the concatenation of the histories:
      selection keeps the table order and looks at each row on its own. */
  lemma {:induction false} HistoryAppend(a: seq<MatchRow>, b: seq<MatchRow>, team: string)
    ensures History(a + b, team) == History(a, team) + History(b, team)
  {
    if a == [] {
      assert a + b == b;
    } else {
      assert (a + b)[1..] == a[1..] + b;
      HistoryAppend(a[1..], b, team);
    }
  }

  /** A table in which the team played every match is its own history. */
  lemma {:induction false} HistoryOfOwnMatches(rows: seq<MatchRow>, team: string)
    requires forall r :: r in rows ==> Involves(r, team)
    ensures History(rows, team) == rows
  {
    if rows != [] {
      HistoryOfOwnMatches(rows[1..], team);
    }
  }

  // ---------------------------------------------------------------------------
  // Latest n matches
  // ---------------------------------------------------------------------------

  /** Later dates first. */
  predicate DateDescending(s: seq<MatchRow>)
  {
    forall i, j :: 0 <= i < j < |s| ==> s[i].date >= s[j].date
  }

  /** Inserts `x` before the first row that is not later than it. */
  function InsertByDate(x: MatchRow, s: seq<MatchRow>): (r: seq<MatchRow>)
    ensures |r| == |s| + 1
  {
    if s == [] || x.date >= s[0].date then [x] + s
    else [s[0]] + InsertByDate(x, s[1..])
  }

  /** Inserting into a date-descending sequence keeps it date-descending and
      brings in no row other than `x`. */
  lemma {:induction false} InsertByDateSorted(x: MatchRow, s: seq<MatchRow>)
    requires DateDescending(s)
    ensures DateDescending(InsertByDate(x, s))
    ensures forall y :: y in InsertByDate(x, s) ==> y == x || y in s
  {
    if s != [] && x.date < s[0].date {
      var rest := InsertByDate(x, s[1..]);
      InsertByDateSorted(x, s[1..]);
      assert forall y :: y in s[1..] ==> y.date <= s[0].date;
      assert InsertByDate(x, s) == [s[0]] + rest;
    }
  }

  /** Inserting adds `x` and loses nothing. */
  lemma {:induction false} InsertByDatePermutes(x: MatchRow, s: seq<MatchRow>)
    ensures multiset(InsertByDate(x, s)) == multiset(s) + multiset{x}
  {
    if s != [] && x.date < s[0].date {
      assert s == [s[0]] + s[1..];
      InsertByDatePermutes(x, s[1..]);
    }
  }

  /** Sorting by date, latest first. Rows with equal dates may come out in any
      order as far as the callers' contracts are concerned. */
  function SortByDateDesc(s: seq<MatchRow>): (r: seq<MatchRow>)
    ensures |r| == |s|
    ensures DateDescending(r)
  {
    if s == [] then []
    else
      var t := SortByDateDesc(s[1..]);
      InsertByDateSorted(s[0], t);
      InsertByDate(s[0], t)
  }

  /** Sorting rearranges the rows and neither adds nor drops any. */
  lemma {:induction false} SortByDateDescPermutes(s: seq<MatchRow>)
    ensures multiset(SortByDateDesc(s)) == multiset(s)
  {
    if s != [] {
      assert s == [s[0]] + s[1..];
      SortByDateDescPermutes(s[1..]);
      InsertByDatePermutes(s[0], SortByDateDesc(s[1..]));
    }
  }

  /** Every row of `h` that `r` leaves out is no later than every row `r` keeps. */
  predicate NoLaterOmitted(h: seq<MatchRow>, r: seq<MatchRow>)
  {
    forall x, j :: x in multiset(h) - multiset(r) && 0 <= j < |r| ==> x.date <= r[j].date
  }

  /** The team's latest `n` matches: its history sorted by date, latest first,
      and cut to at most `n` rows. */
  function LastN(rows: seq<MatchRow>, team: string, n: nat): (r: seq<MatchRow>)
    ensures |r| == if n < |History(rows, team)| then n else |History(rows, team)|
    ensures forall x :: x in r ==> x in History(rows, team)
    ensures DateDescending(r)
  {
    var h := History(rows, team);
    var sorted := SortByDateDesc(h);
    var k := if n < |sorted| then n else |sorted|;
    SortByDateDescPermutes(h);
    assert forall x :: x in sorted[..k] ==> x in multiset(sorted);
    sorted[..k]
  }

  /** Cutting a date-descending arrangement of `h` at `k` keeps rows of `h` only,
      and leaves nothing out that is later than anything kept. */
  lemma SortedPrefixIsLatest(h: seq<MatchRow>, sorted: seq<MatchRow>, k: nat)
    requires DateDescending(sorted) && multiset(sorted) == multiset(h) && k <= |sorted|
    ensures multiset(sorted[..k]) <= multiset(h)
    ensures NoLaterOmitted(h, sorted[..k])
  {
    assert sorted == sorted[..k] + sorted[k..];
    assert multiset(h) - multiset(sorted[..k]) == multiset(sorted[k..]);
    forall x, j | x in multiset(h) - multiset(sorted[..k]) && 0 <= j < k
      ensures x.date <= sorted[..k][j].date
    {
      assert x in sorted[k..];
      var i :| 0 <= i < |sorted[k..]| && sorted[k..][i] == x;
      assert sorted[k + i] == x;
    }
  }

  /** The latest `n` rows are drawn from the history, each at most as often as it
      occurs there, and no history row left out is later than a row kept. */
  lemma LastNIsLatest(rows: seq<MatchRow>, team: string, n: nat)
    ensures multiset(LastN(rows, team, n)) <= multiset(History(rows, team))
    ensures NoLaterOmitted(History(rows, team), LastN(rows, team, n))
  {
    var h := History(rows, team);
    var sorted := SortByDateDesc(h);
    var k := if n < |sorted| then n else |sorted|;
    assert LastN(rows, team, n) == sorted[..k];
    SortByDateDescPermutes(h);
    SortedPrefixIsLatest(h, sorted, k);
  }

  /** Taking the same element out of two arrangements of one multiset leaves
      arrangements of one multiset. */
  lemma RemoveMatching<T>(a: seq<T>, b: seq<T>, j: nat)
    requires |a| > 0 && j < |b| && b[j] == a[0] && multiset(a) == multiset(b)
    ensures multiset(a[1..]) == multiset(b[..j] + b[j + 1..])
  {
    assert a == [a[0]] + a[1..];
    assert b == b[..j] + [b[j]] + b[j + 1..];
    assert multiset(a[1..]) == multiset(a) - multiset{a[0]};
    assert multiset(b[..j] + b[j + 1..]) == multiset(b) - multiset{b[j]};
  }

  /** Arrangements of one multiset with the same first element have tails that are
      arrangements of one multiset. */
  lemma TailsAgree<T>(a: seq<T>, b: seq<T>)
    requires |a| > 0 && |b| > 0 && a[0] == b[0] && multiset(a) == multiset(b)
    ensures multiset(a[1..]) == multiset(b[1..])
  {
    RemoveMatching(a, b, 0);
    assert b[..0] + b[1..] == b[1..];
  }

  /** No two different rows share a date. */
  predicate DistinctDates(s: seq<MatchRow>)
  {
    forall i, j :: 0 <= i < |s| && 0 <= j < |s| && s[i].date == s[j].date ==> s[i] == s[j]
  }

  /** With distinct dates there is only one date-descending arrangement of a
      collection of rows. */
  lemma {:induction false} SortedPermutationUnique(a: seq<MatchRow>, b: seq<MatchRow>)
    requires DateDescending(a) && DateDescending(b) && DistinctDates(a)
    requires multiset(a) == multiset(b)
    ensures a == b
    decreases |a|
  {
    assert |b| == |multiset(b)| == |multiset(a)| == |a|;
    if a != [] {
      UniqueStep(a, b);
      SortedPermutationUnique(a[1..], b[1..]);
      assert a == [a[0]] + a[1..] && b == [b[0]] + b[1..];
    }
  }

  /** One step of SortedPermutationUnique: equal heads, and tails that again meet
      its requirements. */
  lemma UniqueStep(a: seq<MatchRow>, b: seq<MatchRow>)
    requires DateDescending(a) && DateDescending(b) && DistinctDates(a)
    requires multiset(a) == multiset(b) && a != []
    ensures b != [] && b[0] == a[0]
    ensures DateDescending(a[1..]) && DateDescending(b[1..]) && DistinctDates(a[1..])
    ensures multiset(a[1..]) == multiset(b[1..])
  {
    SortedHeadsAgree(a, b);
    TailsAgree(a, b);
    SortedTail(a);
    SortedTail(b);
    DistinctTail(a);
  }

  lemma SortedTail(s: seq<MatchRow>)
    requires DateDescending(s) && s != []
    ensures DateDescending(s[1..])
  {
    forall i, j | 0 <= i < j < |s[1..]| ensures s[1..][i].date >= s[1..][j].date {
      assert s[1..][i] == s[i + 1] && s[1..][j] == s[j + 1];
    }
  }

  lemma DistinctTail(s: seq<MatchRow>)
    requires DistinctDates(s) && s != []
    ensures DistinctDates(s[1..])
  {
    forall i, j | 0 <= i < |s[1..]| && 0 <= j < |s[1..]| && s[1..][i].date == s[1..][j].date
      ensures s[1..][i] == s[1..][j]
    {
      assert s[1..][i] == s[i + 1] && s[1..][j] == s[j + 1];
    }
  }

  /** Two date-descending arrangements of rows with distinct dates start alike. */
  lemma SortedHeadsAgree(a: seq<MatchRow>, b: seq<MatchRow>)
    requires DateDescending(a) && DateDescending(b) && DistinctDates(a)
    requires multiset(a) == multiset(b) && a != []
    ensures b != [] && b[0] == a[0]
  {
    assert a[0] in multiset(b);
    var j :| 0 <= j < |b| && b[j] == a[0];
    assert b[0] in multiset(a);
    var k :| 0 <= k < |a| && a[k] == b[0];
    assert a[0].date >= a[k].date;
    assert b[0].date >= b[j].date;
  }

  /** When no two of the team's matches share a date, every date-descending
      arrangement of its history, whatever sort produced it, cut at `n` gives the
      model's latest-n rows: the tie order of the sort cannot matter. */
  lemma LastNUnderAnySort(rows: seq<MatchRow>, team: string, n: nat, sorted: seq<MatchRow>)
    requires DistinctDates(History(rows, team))
    requires DateDescending(sorted) && multiset(sorted) == multiset(History(rows, team))
    ensures LastN(rows, team, n) == sorted[..if n < |sorted| then n else |sorted|]
  {
    var h := History(rows, team);
    var mine := SortByDateDesc(h);
    SortByDateDescPermutes(h);
    assert DistinctDates(mine) by {
      forall i, j | 0 <= i < |mine| && 0 <= j < |mine| && mine[i].date == mine[j].date
        ensures mine[i] == mine[j]
      {
        assert mine[i] in multiset(h) && mine[j] in multiset(h);
        var k :| 0 <= k < |h| && h[k] == mine[i];
        var l :| 0 <= l < |h| && h[l] == mine[j];
      }
    }
    SortedPermutationUnique(mine, sorted);
  }

  // ---------------------------------------------------------------------------
  // Means
  // ---------------------------------------------------------------------------

  function Sum(xs: seq<real>): real
  {
    if xs == [] then 0.0 else xs[0] + Sum(xs[1..])
  }

  /** The mean of a non-empty series; a series of equal values has that value as its mean. */
  function Mean(xs: seq<real>): (m: real)
    requires |xs| > 0
  {
    Sum(xs) / (|xs| as real)
  }

  lemma {:induction false} SumAppend(a: seq<real>, b: seq<real>)
    ensures Sum(a + b) == Sum(a) + Sum(b)
  {
    if a == [] {
      assert a + b == b;
    } else {
      assert (a + b)[1..] == a[1..] + b;
      SumAppend(a[1..], b);
    }
  }

  /** The sum of a series does not depend on the order of its values. */
  lemma {:induction false} SumPermutation(a: seq<real>, b: seq<real>)
    requires multiset(a) == multiset(b)
    ensures Sum(a) == Sum(b)
    decreases |a|
  {
    if a == [] {
      assert |b| == |multiset(b)| == 0;
    } else {
      assert a[0] in multiset(b);
      var j :| 0 <= j < |b| && b[j] == a[0];
      var rest := b[..j] + b[j + 1..];
      assert b == b[..j] + ([b[j]] + b[j + 1..]);
      RemoveMatching(a, b, j);
      SumPermutation(a[1..], rest);
      SumAppend(b[..j], [b[j]] + b[j + 1..]);
      SumAppend(b[..j], b[j + 1..]);
      assert ([b[j]] + b[j + 1..])[1..] == b[j + 1..];
    }
  }

  /** The mean of a series does not depend on the order of its values. */
  lemma MeanPermutation(a: seq<real>, b: seq<real>)
    requires |a| > 0 && multiset(a) == multiset(b)
    ensures |b| > 0 && Mean(a) == Mean(b)
  {
    assert |a| == |multiset(a)| == |multiset(b)| == |b|;
    SumPermutation(a, b);
  }

  lemma {:induction false} SumWithin(xs: seq<real>, lo: real, hi: real)
    requires forall i :: 0 <= i < |xs| ==> lo <= xs[i] <= hi
    ensures (|xs| as real) * lo <= Sum(xs) <= (|xs| as real) * hi
  {
    if xs != [] {
      SumWithin(xs[1..], lo, hi);
    }
  }

  /** A mean lies between any bounds of its values. */
  lemma MeanWithin(xs: seq<real>, lo: real, hi: real)
    requires |xs| > 0
    requires forall i :: 0 <= i < |xs| ==> lo <= xs[i] <= hi
    ensures lo <= Mean(xs) <= hi
  {
    SumWithin(xs, lo, hi);
  }

  // ---------------------------------------------------------------------------
  // Role-selected averages
  // ---------------------------------------------------------------------------

  /** The value a match contributes to a team's average: the `colHome` column when
      the team was the home side, the `colAway` column otherwise. */
  function RoleValue(row: MatchRow, team: string, colHome: Column, colAway: Column): real
  {
    if row.home_team == team then Stat(row.stats, colHome) else Stat(row.stats, colAway)
  }

  /** One role-selected value per match, in the order of `h`. */
  function RoleValues(h: seq<MatchRow>, team: string, colHome: Column, colAway: Column): seq<real>
  {
    seq(|h|, i requires 0 <= i < |h| => RoleValue(h[i], team, colHome, colAway))
  }

  /** A team's average of a metric over its whole history, 0.0 when it has none. */
  function TeamAverage(rows: seq<MatchRow>, team: string, colHome: Column, colAway: Column): (avg: real)
    ensures History(rows, team) == [] ==> avg == 0.0
  {
    var values := RoleValues(History(rows, team), team, colHome, colAway);
    if |values| > 0 then Mean(values) else 0.0
  }

  /** With a non-empty history, the average is the sum of the team's values over
      the number of matches: every match counts once. */
  lemma TeamAverageOverHistory(rows: seq<MatchRow>, team: string, colHome: Column, colAway: Column)
    requires History(rows, team) != []
    ensures TeamAverage(rows, team, colHome, colAway)
         == Sum(RoleValues(History(rows, team), team, colHome, colAway)) / (|History(rows, team)| as real)
  {
  }

  /** Bounds on every role-selected value of the history bound the average (for
      an empty history, whose average is 0.0, the bounds must admit 0.0). */
  lemma TeamAverageWithin(rows: seq<MatchRow>, team: string, colHome: Column, colAway: Column, lo: real, hi: real)
    requires History(rows, team) != [] || lo <= 0.0 <= hi
    requires forall r :: r in History(rows, team) ==> lo <= RoleValue(r, team, colHome, colAway) <= hi
    ensures lo <= TeamAverage(rows, team, colHome, colAway) <= hi
  {
    var h := History(rows, team);
    var values := RoleValues(h, team, colHome, colAway);
    if |values| > 0 {
      forall i | 0 <= i < |values| ensures lo <= values[i] <= hi {
        assert h[i] in h;
      }
      MeanWithin(values, lo, hi);
    }
  }

  // ---------------------------------------------------------------------------
  // Form over the latest five matches
  // ---------------------------------------------------------------------------

  const FormWindow: nat := 5

  /** `a > b` on nullable scores: a missing score compares false. */
  predicate ScoreAbove(a: Option<int>, b: Option<int>)
  {
    a.Some? && b.Some? && a.value > b.value
  }

  /** `a == b` on nullable scores: a missing score equals nothing, itself included. */
  predicate ScoreLevel(a: Option<int>, b: Option<int>)
  {
    a.Some? && b.Some? && a.value == b.value
  }

  /** Points `team` takes from a match: 3 for a win, 1 for a draw, 0 otherwise
      (a loss, or a match with a missing score). */
  function Points(row: MatchRow, team: string): (p: nat)
    ensures p == 0 || p == 1 || p == 3
    ensures p == 3 <==> (if row.home_team == team then ScoreAbove(row.home_score, row.away_score)
                                                 else ScoreAbove(row.away_score, row.home_score))
    ensures p == 1 <==> ScoreLevel(row.home_score, row.away_score)
  {
    var own := if row.home_team == team then row.home_score else row.away_score;
    var other := if row.home_team == team then row.away_score else row.home_score;
    if ScoreAbove(own, other) then 3
    else if ScoreLevel(own, other) then 1
    else 0
  }

  /** `f` applied to every element, in order. */
  function Apply<T>(s: seq<T>, f: T -> real): (r: seq<real>)
    ensures |r| == |s|
    ensures forall i :: 0 <= i < |s| ==> r[i] == f(s[i])
  {
    if s == [] then [] else [f(s[0])] + Apply(s[1..], f)
  }

  lemma {:induction false} ApplyAppend<T>(a: seq<T>, b: seq<T>, f: T -> real)
    ensures Apply(a + b, f) == Apply(a, f) + Apply(b, f)
  {
    if a != [] {
      assert (a + b)[1..] == a[1..] + b;
      ApplyAppend(a[1..], b, f);
    } else {
      assert a + b == b;
    }
  }

  /** The total of `f` over a collection does not depend on its order. */
  lemma {:induction false} ApplyTotalPermutation<T>(a: seq<T>, b: seq<T>, f: T -> real)
    requires multiset(a) == multiset(b)
    ensures Sum(Apply(a, f)) == Sum(Apply(b, f))
    decreases |a|
  {
    if a == [] {
      assert |b| == |multiset(b)| == 0;
    } else {
      assert a[0] in multiset(b);
      var j :| 0 <= j < |b| && b[j] == a[0];
      var l, r := b[..j], b[j + 1..];
      RemoveMatching(a, b, j);
      ApplyTotalPermutation(a[1..], l + r, f);
      assert b == l + ([a[0]] + r);
      ApplyAppend(l, [a[0]] + r, f);
      ApplyAppend(l, r, f);
      assert Apply([a[0]] + r, f) == [f(a[0])] + Apply(r, f);
      SumAppend(Apply(l, f), Apply([a[0]] + r, f));
      SumAppend(Apply(l, f), Apply(r, f));
    }
  }

  /** The points a match earns `team`, as a real for averaging. */
  function PointScore(team: string): MatchRow -> real
  {
    row => Points(row, team) as real
  }

  /** One points value per match, in the order of `h`. */
  function PointsOf(h: seq<MatchRow>, team: string): (ps: seq<real>)
    ensures |ps| == |h|
    ensures forall i :: 0 <= i < |h| ==> ps[i] == Points(h[i], team) as real
    ensures forall i :: 0 <= i < |ps| ==> 0.0 <= ps[i] <= 3.0
  {
    Apply(h, PointScore(team))
  }

  /** Reordering matches leaves their total points unchanged. */
  lemma PointsTotalPermutation(a: seq<MatchRow>, b: seq<MatchRow>, team: string)
    requires multiset(a) == multiset(b)
    ensures Sum(PointsOf(a, team)) == Sum(PointsOf(b, team))
  {
    ApplyTotalPermutation(a, b, PointScore(team));
  }

  /** Mean points over the team's latest five matches, 0.0 when it has none. */
  function FormLast5(rows: seq<MatchRow>, team: string): (form: real)
    ensures 0.0 <= form <= 3.0
    ensures History(rows, team) == [] ==> form == 0.0
  {
    var points := PointsOf(LastN(rows, team, FormWindow), team);
    if |points| > 0 then
      MeanWithin(points, 0.0, 3.0);
      Mean(points)
    else 0.0
  }

  /** With a non-empty history the form is taken over between one and five
      matches: their total points over their number. */
  lemma FormLast5OverWindow(rows: seq<MatchRow>, team: string)
    requires History(rows, team) != []
    ensures 0 < |LastN(rows, team, FormWindow)| <= 5
    ensures FormLast5(rows, team)
         == Sum(PointsOf(LastN(rows, team, FormWindow), team)) / (|LastN(rows, team, FormWindow)| as real)
  {
  }

  /** The form depends on which matches are the latest five, not on their order:
      averaging the points of any rearrangement of them gives the same form. */
  lemma FormIgnoresWindowOrder(rows: seq<MatchRow>, team: string, w: seq<MatchRow>)
    requires multiset(w) == multiset(LastN(rows, team, FormWindow))
    ensures |w| > 0 ==> Mean(PointsOf(w, team)) == FormLast5(rows, team)
    ensures |w| == 0 ==> FormLast5(rows, team) == 0.0
  {
    var last := LastN(rows, team, FormWindow);
    assert |w| == |multiset(w)| == |last|;
    if |w| > 0 {
      PointsTotalPermutation(last, w, team);
    }
  }

  // ---------------------------------------------------------------------------
  // The feature record of a fixture
  // ---------------------------------------------------------------------------

  /** The features of a fixture, computed from the two team names and the table
      alone. The home team's "home performance" is its overall shots average, and
      the away team's "away performance" averages the columns the other way round. */
  function FeaturesFor(rows: seq<MatchRow>, fx: Fixture): (f: MatchFeatures)
    ensures f.match_id == fx.match_id && f.home_team == fx.home_team && f.away_team == fx.away_team
    ensures f.delta_corners == f.home_avg_corners - f.away_avg_corners
    ensures f.delta_shots == f.home_avg_shots - f.away_avg_shots
    ensures f.delta_xg == f.home_avg_xg - f.away_avg_xg
    ensures f.delta_yellow_cards == f.home_avg_yellow_cards - f.away_avg_yellow_cards
    ensures f.home_home_performance == f.home_avg_shots
    ensures 0.0 <= f.home_form_last5 <= 3.0 && 0.0 <= f.away_form_last5 <= 3.0
  {
    var home := fx.home_team;
    var away := fx.away_team;
    var homeAvgCorners := TeamAverage(rows, home, CornersHome, CornersAway);
    var awayAvgCorners := TeamAverage(rows, away, CornersHome, CornersAway);
    var homeAvgShots := TeamAverage(rows, home, ShotsHome, ShotsAway);
    var awayAvgShots := TeamAverage(rows, away, ShotsHome, ShotsAway);
    var homeAvgYellow := TeamAverage(rows, home, YellowCardsHome, YellowCardsAway);
    var awayAvgYellow := TeamAverage(rows, away, YellowCardsHome, YellowCardsAway);
    var homeAvgXg := TeamAverage(rows, home, XgHome, XgAway);
    var awayAvgXg := TeamAverage(rows, away, XgHome, XgAway);
    MatchFeatures(
      match_id := fx.match_id,
      home_team := home,
      away_team := away,
      home_avg_corners := homeAvgCorners,
      away_avg_corners := awayAvgCorners,
      home_avg_shots := homeAvgShots,
      away_avg_shots := awayAvgShots,
      home_avg_yellow_cards := homeAvgYellow,
      away_avg_yellow_cards := awayAvgYellow,
      home_avg_xg := homeAvgXg,
      away_avg_xg := awayAvgXg,
      home_form_last5 := FormLast5(rows, home),
      away_form_last5 := FormLast5(rows, away),
      home_home_performance := TeamAverage(rows, home, ShotsHome, ShotsAway),
      away_away_performance := TeamAverage(rows, away, ShotsAway, ShotsHome),
      delta_corners := homeAvgCorners - awayAvgCorners,
      delta_shots := homeAvgShots - awayAvgShots,
      delta_xg := homeAvgXg - awayAvgXg,
      delta_yellow_cards := homeAvgYellow - awayAvgYellow)
  }

  // ---------------------------------------------------------------------------
  // The builder
  // ---------------------------------------------------------------------------

  /** Holds the joined table of matches and statistics and builds feature rows from it. */
  class FeatureBuilder {
    const df: seq<MatchRow>

    /** Takes the matches joined with their statistics on `match_id`, one unsuffixed
        column per match field (the corrected join of module `Join`). */
    constructor (joined: seq<MatchRow>)
      ensures df == joined
    {
      df := joined;
    }

    /** Collects one role-selected value per history row, then averages them. */
    method TeamAvg(team: string, colHome: Column, colAway: Column) returns (avg: real)
      ensures avg == TeamAverage(df, team, colHome, colAway)
    {
      var hist := History(df, team);
      var values: seq<real> := [];
      var i := 0;
      while i < |hist|
        invariant 0 <= i <= |hist|
        invariant values == RoleValues(hist[..i], team, colHome, colAway)
      {
        var row := hist[i];
        if row.home_team == team {
          values := values + [Stat(row.stats, colHome)];
        } else {
          values := values + [Stat(row.stats, colAway)];
        }
        i := i + 1;
      }
      assert hist[..i] == hist;
      avg := if |values| > 0 then Mean(values) else 0.0;
    }

    /** Scores each of the latest five matches 3/1/0 from the team's side, then averages. */
    method TeamFormLast5(team: string) returns (form: real)
      ensures form == FormLast5(df, team)
    {
      var last5 := LastN(df, team, FormWindow);
      var points: seq<real> := [];
      var i := 0;
      while i < |last5|
        invariant 0 <= i <= |last5|
        invariant points == PointsOf(last5[..i], team)
      {
        var row := last5[i];
        var p: real;
        if row.home_team == team {
          if ScoreAbove(row.home_score, row.away_score) {
            p := 3.0;
          } else if ScoreLevel(row.home_score, row.away_score) {
            p := 1.0;
          } else {
            p := 0.0;
          }
        } else {
          if ScoreAbove(row.away_score, row.home_score) {
            p := 3.0;
          } else if ScoreLevel(row.away_score, row.home_score) {
            p := 1.0;
          } else {
            p := 0.0;
          }
        }
        assert p == Points(row, team) as real;
        assert last5[..i + 1] == last5[..i] + [row];
        points := points + [p];
        i := i + 1;
      }
      assert last5[..i] == last5;
      form := if |points| > 0 then Mean(points) else 0.0;
    }

    /** The feature row of one fixture; only its teams and match id are read. */
    method BuildFeaturesForMatch(fx: Fixture) returns (f: MatchFeatures)
      ensures f == FeaturesFor(df, fx)
    {
      var home := fx.home_team;
      var away := fx.away_team;

      var homeAvgCorners := TeamAvg(home, CornersHome, CornersAway);
      var awayAvgCorners := TeamAvg(away, CornersHome, CornersAway);
      var homeAvgShots := TeamAvg(home, ShotsHome, ShotsAway);
      var awayAvgShots := TeamAvg(away, ShotsHome, ShotsAway);
      var homeAvgYellow := TeamAvg(home, YellowCardsHome, YellowCardsAway);
      var awayAvgYellow := TeamAvg(away, YellowCardsHome, YellowCardsAway);
      var homeAvgXg := TeamAvg(home, XgHome, XgAway);
      var awayAvgXg := TeamAvg(away, XgHome, XgAway);

      var homeForm := TeamFormLast5(home);
      var awayForm := TeamFormLast5(away);

      var homeHomePerf := TeamAvg(home, ShotsHome, ShotsAway);
      var awayAwayPerf := TeamAvg(away, ShotsAway, ShotsHome);

      f := MatchFeatures(
        match_id := fx.match_id,
        home_team := home,
        away_team := away,
        home_avg_corners := homeAvgCorners,
        away_avg_corners := awayAvgCorners,
        home_avg_shots := homeAvgShots,
        away_avg_shots := awayAvgShots,
        home_avg_yellow_cards := homeAvgYellow,
        away_avg_yellow_cards := awayAvgYellow,
        home_avg_xg := homeAvgXg,
        away_avg_xg := awayAvgXg,
        home_form_last5 := homeForm,
        away_form_last5 := awayForm,
        home_home_performance := homeHomePerf,
        away_away_performance := awayAwayPerf,
        delta_corners := homeAvgCorners - awayAvgCorners,
        delta_shots := homeAvgShots - awayAvgShots,
        delta_xg := homeAvgXg - awayAvgXg,
        delta_yellow_cards := homeAvgYellow - awayAvgYellow);
    }

    /** The loop both drivers run: one feature row per fixture, in order, each
        built by BuildFeaturesForMatch. */
    method BuildForFixtures(fixtures: seq<Fixture>) returns (features: seq<MatchFeatures>)
      ensures |features| == |fixtures|
      ensures forall i :: 0 <= i < |fixtures| ==> features[i] == FeaturesFor(df, fixtures[i])
    {
      features := [];
      var i := 0;
      while i < |fixtures|
        invariant 0 <= i <= |fixtures|
        invariant |features| == i
        invariant forall k :: 0 <= k < i ==> features[k] == FeaturesFor(df, fixtures[k])
      {
        var f := BuildFeaturesForMatch(fixtures[i]);
        features := features + [f];
        i := i + 1;
      }
    }

    /** The training set: one feature row per row of the table, in table order. */
    method BuildAllFeatures() returns (features: seq<MatchFeatures>)
      ensures |features| == |df|
      ensures forall i :: 0 <= i < |df| ==> features[i] == FeaturesFor(df, FixtureOf(df[i]))
    {
      var fixtures := seq(|df|, k requires 0 <= k < |df| => FixtureOf(df[k]));
      features := BuildForFixtures(fixtures);
    }

    /** The next-round set: one feature row per upcoming fixture, in the given order. */
    method BuildNextRoundFeatures(nextRound: seq<Fixture>) returns (features: seq<MatchFeatures>)
      ensures |features| == |nextRound|
      ensures forall i :: 0 <= i < |nextRound| ==> features[i] == FeaturesFor(df, nextRound[i])
    {
      features := BuildForFixtures(nextRound);
    }
  }
}
