/** The column names produced when the builder joins the matches file with the
    statistics file on the match id (a left merge). Only the header is modelled:
    a column that both files carry, other than the key, is renamed with "_x" on the
    matches side and "_y" on the statistics side, so a reader that asks for the
    plain name no longer finds it. */
module Join {

  /** The join key. */
  const KeyColumn: string := "match_id"

  /** The header of the matches file: one column per field of a match record. */
  const MatchColumns: seq<string> :=
    ["match_id", "season", "round_number", "date", "home_team", "away_team", "home_score", "away_score"]

  /** The joined columns the builder reads: the history filter, the date sort and
      the form's score comparison. */
  const BuilderReads: seq<string> := ["home_team", "away_team", "date", "home_score", "away_score"]

  /** A name the merge can produce only by leaving a column as it is. */
  predicate Unsuffixed(c: string)
  {
    !(|c| >= 2 && (c[|c| - 2..] == "_x" || c[|c| - 2..] == "_y"))
  }

  /** The name a column of the left frame gets in the result. */
  function LeftName(c: string, right: seq<string>, key: string): string
  {
    if c != key && c in right then c + "_x" else c
  }

  /** The name a non-key column of the right frame gets in the result. */
  function RightName(c: string, left: seq<string>): string
  {
    if c in left then c + "_y" else c
  }

  function LeftNames(left: seq<string>, right: seq<string>, key: string): (r: seq<string>)
    ensures |r| == |left|
    ensures forall i :: 0 <= i < |left| ==> r[i] == LeftName(left[i], right, key)
  {
    if left == [] then [] else [LeftName(left[0], right, key)] + LeftNames(left[1..], right, key)
  }

  /** The columns of `cols` other than `drop`, in order. */
  function Without(cols: seq<string>, drop: string): (r: seq<string>)
    ensures forall x :: x in r <==> x in cols && x != drop
  {
    if cols == [] then []
    else if cols[0] == drop then Without(cols[1..], drop)
    else [cols[0]] + Without(cols[1..], drop)
  }

  function RightNames(right: seq<string>, left: seq<string>, key: string): (r: seq<string>)
    ensures var rest := Without(right, key);
            |r| == |rest| && forall i :: 0 <= i < |rest| ==> r[i] == RightName(rest[i], left)
  {
    var rest := Without(right, key);
    seq(|rest|, i requires 0 <= i < |rest| => RightName(rest[i], left))
  }

  /** The header of `left.merge(right, on=key)`: the left columns, then the right
      columns without the key, each renamed when the other side shares it. */
  function MergedColumns(left: seq<string>, right: seq<string>, key: string): (r: seq<string>)
    ensures |r| == |left| + |Without(right, key)|
  {
    LeftNames(left, right, key) + RightNames(right, left, key)
  }

  lemma SuffixedIsNot(d: string, suffix: string, c: string)
    requires suffix == "_x" || suffix == "_y"
    requires Unsuffixed(c)
    ensures d + suffix != c
  {
    var e := d + suffix;
    assert e[|e| - 2..] == suffix;
  }

  /** A non-key column carried by both frames, whose name the renaming cannot
      produce, is missing from the merged header. */
  lemma SharedColumnHidden(left: seq<string>, right: seq<string>, key: string, c: string)
    requires c != key && c in left && c in right && Unsuffixed(c)
    ensures c !in MergedColumns(left, right, key)
  {
    var ls := LeftNames(left, right, key);
    var rest := Without(right, key);
    var rs := RightNames(right, left, key);
    forall i | 0 <= i < |left|
      ensures ls[i] != c
    {
      if left[i] != key && left[i] in right {
        SuffixedIsNot(left[i], "_x", c);
      }
    }
    forall i | 0 <= i < |rest|
      ensures rs[i] != c
    {
      if rest[i] in left {
        SuffixedIsNot(rest[i], "_y", c);
      }
    }
    assert MergedColumns(left, right, key) == ls + rs;
  }

  /** As written: the statistics file repeats every column of the matches file
      (then adds its own), so the merge hides all the columns the builder reads. */
  lemma AsWrittenJoinHidesMatchColumns(extra: seq<string>)
    ensures forall c :: c in BuilderReads ==> c !in MergedColumns(MatchColumns, MatchColumns + extra, KeyColumn)
  {
    forall c | c in BuilderReads
      ensures c !in MergedColumns(MatchColumns, MatchColumns + extra, KeyColumn)
    {
      assert c in MatchColumns;
      SharedColumnHidden(MatchColumns, MatchColumns + extra, KeyColumn, c);
    }
  }

  /** The statistics columns that the matches side does not already supply. */
  function DropShared(right: seq<string>, left: seq<string>, key: string): (r: seq<string>)
    ensures forall x :: x in r <==> x in right && (x == key || x !in left)
  {
    if right == [] then []
    else if right[0] != key && right[0] in left then DropShared(right[1..], left, key)
    else [right[0]] + DropShared(right[1..], left, key)
  }

  /** Corrected join: merge after dropping the repeated columns from the right. */
  function CorrectedMerge(left: seq<string>, right: seq<string>, key: string): seq<string>
  {
    MergedColumns(left, DropShared(right, left, key), key)
  }

  /** The corrected header holds exactly the columns of the two frames, each under
      its own name (a merge on a key missing from either frame is an error). */
  lemma CorrectedMergeColumns(left: seq<string>, right: seq<string>, key: string)
    requires key in left && key in right
    ensures forall x :: x in CorrectedMerge(left, right, key) <==> x in left || x in right
  {
    var kept := DropShared(right, left, key);
    var ls := LeftNames(left, kept, key);
    var rest := Without(kept, key);
    var rs := RightNames(kept, left, key);
    assert CorrectedMerge(left, right, key) == ls + rs;
    forall i | 0 <= i < |left|
      ensures ls[i] == left[i]
    {
    }
    forall i | 0 <= i < |rest|
      ensures rs[i] == rest[i]
    {
    }
    forall x | x in left || x in right
      ensures x in ls + rs
    {
      if x in left {
        var i :| 0 <= i < |left| && left[i] == x;
        assert ls[i] == x;
      } else {
        assert x in rest;
        var i :| 0 <= i < |rest| && rest[i] == x;
        assert rs[i] == x;
      }
    }
  }

  /** Corrected: every column the builder reads is in the joined header under its
      plain name. */
  lemma CorrectedJoinKeepsBuilderColumns(extra: seq<string>)
    ensures forall c :: c in BuilderReads ==> c in CorrectedMerge(MatchColumns, MatchColumns + extra, KeyColumn)
  {
    assert KeyColumn in MatchColumns;
    CorrectedMergeColumns(MatchColumns, MatchColumns + extra, KeyColumn);
    assert forall c :: c in BuilderReads ==> c in MatchColumns;
  }
}
