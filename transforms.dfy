/** Extra ratio columns over a statistics frame: pass accuracy and shots-on-target
    ratio for each side, each added only when both of its input columns exist, with
    a zero denominator read as 1. The frame is a value, so the caller's frame is
    never changed: the result is a new frame. */
module Transforms {

  /** A data frame: its number of rows and its named numeric columns. */
  datatype Frame = Frame(rows: nat, columns: map<string, seq<real>>)

  /** Every column has one value per row. */
  predicate WellFormed(df: Frame)
  {
    forall c :: c in df.columns ==> |df.columns[c]| == df.rows
  }

  /** A ratio column and the two columns it is computed from. */
  datatype Ratio = Ratio(target: string, numerator: string, denominator: string)

  const PassAccuracyHome := Ratio("pass_accuracy_home", "passes_completed_home", "passes_total_home")
  const PassAccuracyAway := Ratio("pass_accuracy_away", "passes_completed_away", "passes_total_away")
  const ShotsOnTargetRatioHome := Ratio("shots_on_target_ratio_home", "shots_on_target_home", "shots_home")
  const ShotsOnTargetRatioAway := Ratio("shots_on_target_ratio_away", "shots_on_target_away", "shots_away")

  const BasicRatios: seq<Ratio> := [PassAccuracyHome, PassAccuracyAway, ShotsOnTargetRatioHome, ShotsOnTargetRatioAway]

  /** The columns the ratios of `gs` write. */
  function Targets(gs: seq<Ratio>): set<string>
  {
    set g | g in gs :: g.target
  }

  /** The names of the four ratio columns. */
  const RatioColumns: set<string> := Targets(BasicRatios)

  lemma RatioColumnNames()
    ensures RatioColumns
         == {"pass_accuracy_home", "pass_accuracy_away", "shots_on_target_ratio_home", "shots_on_target_ratio_away"}
  {
    assert PassAccuracyHome in BasicRatios && PassAccuracyAway in BasicRatios;
    assert ShotsOnTargetRatioHome in BasicRatios && ShotsOnTargetRatioAway in BasicRatios;
  }

  predicate HasInputs(df: Frame, g: Ratio)
  {
    g.numerator in df.columns && g.denominator in df.columns
  }

  /** Row-by-row `num / den` with every zero of `den` replaced by 1. */
  function SafeRatio(num: seq<real>, den: seq<real>): (r: seq<real>)
    requires |num| == |den|
    ensures |r| == |num|
    ensures forall i :: 0 <= i < |r| && den[i] == 0.0 ==> r[i] == num[i]
    ensures forall i :: 0 <= i < |r| && den[i] != 0.0 ==> r[i] == num[i] / den[i]
  {
    seq(|num|, i requires 0 <= i < |num| => num[i] / (if den[i] == 0.0 then 1.0 else den[i]))
  }

  /** One guarded assignment: `df[target] = df[num] / df[den].replace(0, 1)` when
      both input columns are present. */
  function AddRatio(df: Frame, g: Ratio): (out: Frame)
    requires WellFormed(df)
    ensures WellFormed(out) && out.rows == df.rows
  {
    if HasInputs(df, g) then
      df.(columns := df.columns[g.target := SafeRatio(df.columns[g.numerator], df.columns[g.denominator])])
    else df
  }

  /** The guarded assignments of `gs`, one after the other. */
  function AddRatios(df: Frame, gs: seq<Ratio>): (out: Frame)
    requires WellFormed(df)
    ensures WellFormed(out) && out.rows == df.rows
    decreases |gs|
  {
    if gs == [] then df else AddRatios(AddRatio(df, gs[0]), gs[1..])
  }

  /** No ratio writes a column that a ratio reads, and no two ratios write the same column. */
  predicate Separated(gs: seq<Ratio>)
  {
    forall i, j :: 0 <= i < |gs| && 0 <= j < |gs| ==>
      && gs[i].target != gs[j].numerator
      && gs[i].target != gs[j].denominator
      && (i != j ==> gs[i].target != gs[j].target)
  }

  /** The targets of the ratios of `gs` whose inputs `df` has. */
  function Computable(df: Frame, gs: seq<Ratio>): set<string>
  {
    set g | g in gs && HasInputs(df, g) :: g.target
  }

  /** The columns of `out` are those of `df` and the computable targets. */
  predicate KeysAdded(df: Frame, gs: seq<Ratio>, out: Frame)
  {
    out.columns.Keys == df.columns.Keys + Computable(df, gs)
  }

  /** Every column of `df` that no ratio writes keeps its values. */
  predicate OthersKept(df: Frame, gs: seq<Ratio>, out: Frame)
  {
    forall c :: c in df.columns && c in out.columns && (forall g :: g in gs ==> g.target != c) ==>
      out.columns[c] == df.columns[c]
  }

  /** Every computable ratio holds the safe ratio of its inputs as they were in `df`. */
  predicate RatiosComputed(df: Frame, gs: seq<Ratio>, out: Frame)
    requires WellFormed(df)
  {
    forall g :: g in gs && HasInputs(df, g) && g.target in out.columns ==>
      out.columns[g.target] == SafeRatio(df.columns[g.numerator], df.columns[g.denominator])
  }

  /** A ratio whose inputs are missing leaves an existing column of its name as it was. */
  predicate UncomputableKept(df: Frame, gs: seq<Ratio>, out: Frame)
  {
    forall g :: g in gs && !HasInputs(df, g) && g.target in df.columns && g.target in out.columns ==>
      out.columns[g.target] == df.columns[g.target]
  }

  /** `out` is `df` with exactly the ratios of `gs` whose inputs `df` has added:
      the new columns are those targets, each holds its safe ratio, and every
      other column keeps its values. */
  predicate RatiosAdded(df: Frame, gs: seq<Ratio>, out: Frame)
    requires WellFormed(df)
  {
    KeysAdded(df, gs, out) && OthersKept(df, gs, out) && RatiosComputed(df, gs, out) && UncomputableKept(df, gs, out)
  }

  lemma {:induction false} AddRatiosCorrect(df: Frame, gs: seq<Ratio>)
    requires WellFormed(df) && Separated(gs)
    ensures RatiosAdded(df, gs, AddRatios(df, gs))
    decreases |gs|
  {
    if gs == [] {
      assert Computable(df, gs) == {};
    } else {
      var g0 := gs[0];
      var rest := gs[1..];
      var df1 := AddRatio(df, g0);
      var out := AddRatios(df, gs);
      assert out == AddRatios(df1, rest);
      assert gs == [g0] + rest;
      SeparatedTail(gs);
      AddRatiosCorrect(df1, rest);
      StepFacts(df, gs);
      StepKeys(df, g0, rest, out);
      StepOthers(df, g0, rest, out);
      StepRatios(df, g0, rest, out);
      StepUncomputable(df, g0, rest, out);
    }
  }

  lemma SeparatedTail(gs: seq<Ratio>)
    requires gs != [] && Separated(gs)
    ensures Separated(gs[1..])
  {
    var rest := gs[1..];
    forall i, j | 0 <= i < |rest| && 0 <= j < |rest|
      ensures rest[i].target != rest[j].numerator && rest[i].target != rest[j].denominator
      ensures i != j ==> rest[i].target != rest[j].target
    {
      assert rest[i] == gs[i + 1] && rest[j] == gs[j + 1];
    }
  }

  /** The first ratio of a separated list writes no input of the list and no
      other ratio's column. */
  lemma StepFacts(df: Frame, gs: seq<Ratio>)
    requires gs != [] && Separated(gs)
    ensures forall g :: g in gs ==> g.numerator != gs[0].target && g.denominator != gs[0].target
    ensures forall g :: g in gs[1..] ==> g.target != gs[0].target
  {
    forall g | g in gs
      ensures g.numerator != gs[0].target && g.denominator != gs[0].target
    {
      var j :| 0 <= j < |gs| && gs[j] == g;
      assert gs[0].target != gs[j].numerator && gs[0].target != gs[j].denominator;
    }
    forall g | g in gs[1..] ensures g.target != gs[0].target {
      var j :| 0 <= j < |gs[1..]| && gs[1..][j] == g;
      assert gs[j + 1] == g;
      assert gs[0].target != gs[j + 1].target;
    }
  }

  /** The key part of one induction step of `AddRatiosCorrect`. */
  lemma StepKeys(df: Frame, g0: Ratio, rest: seq<Ratio>, out: Frame)
    requires WellFormed(df)
    requires forall g :: g in [g0] + rest ==> g.numerator != g0.target && g.denominator != g0.target
    requires KeysAdded(AddRatio(df, g0), rest, out)
    ensures KeysAdded(df, [g0] + rest, out)
  {
    var df1 := AddRatio(df, g0);
    var gs := [g0] + rest;
    forall g | g in rest ensures HasInputs(df1, g) <==> HasInputs(df, g) {
      assert g in gs;
    }
    var s := Computable(df, gs);
    forall x | x in out.columns ensures x in df.columns || x in s {
      if x !in df1.columns {
        var g :| g in rest && HasInputs(df1, g) && g.target == x;
        assert g in gs;
      } else if x !in df.columns {
        assert g0 in gs;
      }
    }
    forall x | x in s ensures x in out.columns {
      var g :| g in gs && HasInputs(df, g) && g.target == x;
      if g != g0 {
        assert g in rest;
      }
    }
  }

  /** Unwritten columns in one induction step of `AddRatiosCorrect`. */
  lemma StepOthers(df: Frame, g0: Ratio, rest: seq<Ratio>, out: Frame)
    requires WellFormed(df)
    requires OthersKept(AddRatio(df, g0), rest, out)
    ensures OthersKept(df, [g0] + rest, out)
  {
    var df1 := AddRatio(df, g0);
    var gs := [g0] + rest;
    forall c | c in df.columns && c in out.columns && (forall g :: g in gs ==> g.target != c)
      ensures out.columns[c] == df.columns[c]
    {
      assert g0 in gs;
      forall g | g in rest ensures g.target != c {
        assert g in gs;
      }
    }
  }

  /** Computed ratios in one induction step of `AddRatiosCorrect`. */
  lemma StepRatios(df: Frame, g0: Ratio, rest: seq<Ratio>, out: Frame)
    requires WellFormed(df)
    requires forall g :: g in [g0] + rest ==> g.numerator != g0.target && g.denominator != g0.target
    requires forall g :: g in rest ==> g.target != g0.target
    requires OthersKept(AddRatio(df, g0), rest, out)
    requires RatiosComputed(AddRatio(df, g0), rest, out)
    ensures RatiosComputed(df, [g0] + rest, out)
  {
    var df1 := AddRatio(df, g0);
    var gs := [g0] + rest;
    forall g | g in gs && HasInputs(df, g) && g.target in out.columns
      ensures out.columns[g.target] == SafeRatio(df.columns[g.numerator], df.columns[g.denominator])
    {
      if g == g0 {
        assert out.columns[g0.target] == df1.columns[g0.target];
      } else {
        assert g in rest && g in gs;
        assert HasInputs(df1, g);
      }
    }
  }

  /** Uncomputable ratios in one induction step of `AddRatiosCorrect`. */
  lemma StepUncomputable(df: Frame, g0: Ratio, rest: seq<Ratio>, out: Frame)
    requires WellFormed(df)
    requires forall g :: g in [g0] + rest ==> g.numerator != g0.target && g.denominator != g0.target
    requires forall g :: g in rest ==> g.target != g0.target
    requires OthersKept(AddRatio(df, g0), rest, out)
    requires UncomputableKept(AddRatio(df, g0), rest, out)
    ensures UncomputableKept(df, [g0] + rest, out)
  {
    var df1 := AddRatio(df, g0);
    var gs := [g0] + rest;
    forall g | g in gs && !HasInputs(df, g) && g.target in df.columns && g.target in out.columns
      ensures out.columns[g.target] == df.columns[g.target]
    {
      if g == g0 {
        assert out.columns[g0.target] == df1.columns[g0.target];
      } else {
        assert g in rest && g in gs;
        assert !HasInputs(df1, g);
      }
    }
  }

  /** Running the ratios of a separated list a second time changes nothing: their
      inputs are not among the columns they write, so each is recomputed from the
      same values. */
  lemma AddRatiosIdempotent(df: Frame, gs: seq<Ratio>)
    requires WellFormed(df) && Separated(gs)
    ensures AddRatios(AddRatios(df, gs), gs) == AddRatios(df, gs)
  {
    var once := AddRatios(df, gs);
    var twice := AddRatios(once, gs);
    AddRatiosCorrect(df, gs);
    AddRatiosCorrect(once, gs);
    forall g | g in gs
      ensures g.numerator !in Computable(df, gs) && g.denominator !in Computable(df, gs)
    {
      var i :| 0 <= i < |gs| && gs[i] == g;
      forall h | h in gs ensures h.target != g.numerator && h.target != g.denominator {
        var j :| 0 <= j < |gs| && gs[j] == h;
      }
    }
    forall g | g in gs
      ensures HasInputs(once, g) <==> HasInputs(df, g)
      ensures HasInputs(df, g) ==> once.columns[g.numerator] == df.columns[g.numerator]
      ensures HasInputs(df, g) ==> once.columns[g.denominator] == df.columns[g.denominator]
    {
      if HasInputs(df, g) {
        NotWritten(gs, g.numerator);
        NotWritten(gs, g.denominator);
      }
    }
    assert twice.columns.Keys == once.columns.Keys;
    forall c | c in twice.columns ensures twice.columns[c] == once.columns[c] {
      if g :| g in gs && g.target == c {
        if !HasInputs(df, g) {
          assert c in df.columns;
        }
      }
    }
    assert twice.columns == once.columns;
  }

  /** An input column of a separated list is no ratio's target. */
  lemma NotWritten(gs: seq<Ratio>, c: string)
    requires Separated(gs)
    requires exists g :: g in gs && (g.numerator == c || g.denominator == c)
    ensures forall h :: h in gs ==> h.target != c
  {
    var g :| g in gs && (g.numerator == c || g.denominator == c);
    var i :| 0 <= i < |gs| && gs[i] == g;
    forall h | h in gs ensures h.target != c {
      var j :| 0 <= j < |gs| && gs[j] == h;
    }
  }

  lemma ComputableWithinTargets(df: Frame, gs: seq<Ratio>)
    ensures Computable(df, gs) <= Targets(gs)
  {
  }

  /** The four basic ratios read none of the columns they write. */
  lemma BasicRatiosSeparated()
    ensures Separated(BasicRatios)
  {
  }

  /** The frame with the four ratio columns added in order. */
  function AddBasicRatios(df: Frame): (out: Frame)
    requires WellFormed(df)
    ensures WellFormed(out) && out.rows == df.rows
    ensures RatiosAdded(df, BasicRatios, out)
    ensures out.columns.Keys - df.columns.Keys <= RatioColumns
  {
    BasicRatiosSeparated();
    AddRatiosCorrect(df, BasicRatios);
    ComputableWithinTargets(df, BasicRatios);
    AddRatios(df, BasicRatios)
  }

  /** Adding the basic ratios a second time changes nothing. */
  lemma AddBasicRatiosIdempotent(df: Frame)
    requires WellFormed(df)
    ensures AddBasicRatios(AddBasicRatios(df)) == AddBasicRatios(df)
  {
    BasicRatiosSeparated();
    AddRatiosIdempotent(df, BasicRatios);
  }
}
