/**
 * `data.groupby("state")[num_cols].mean()` of dashboard.py: one aggregate per state,
 * each indicator the unweighted mean of that state's non-missing values.
 */
module Aggregation {
  import opened Wrappers
  import opened NumericCoercion
  import opened Stats
  import opened StateMapper
  import opened FraudEngine

  /** The three indicator means of one state (NaN when the state has no value). */
  datatype StateMeans = StateMeans(rushIndex: Option<real>, digitalLiteracy: Option<real>, migrationScore: Option<real>)

  /** The groups: every state that some row carries (NaN states form no group). */
  function States(rows: seq<Row>): set<string>
  {
    set i | 0 <= i < |rows| && rows[i].state.Some? :: rows[i].state.value
  }

  /** Column c of the rows of state s, in frame order. */
  function GroupColumn(rows: seq<Row>, s: string, c: Indicator): seq<Option<real>>
  {
    if rows == [] then []
    else
      (if rows[0].state == Some(s) then [Value(Get(rows[0], c))] else []) + GroupColumn(rows[1..], s, c)
  }

  function GroupMean(rows: seq<Row>, s: string, c: Indicator): Option<real>
  {
    Mean(Present(GroupColumn(rows, s, c)))
  }

  function AggregateByState(rows: seq<Row>): (agg: map<string, StateMeans>)
  {
    map s | s in States(rows) ::
      StateMeans(GroupMean(rows, s, RushIndex), GroupMean(rows, s, DigitalLiteracy), GroupMean(rows, s, MigrationScore))
  }

  /** A value of a group's column is the value of a row of that state, and conversely. */
  lemma {:induction false} GroupColumnMembers(rows: seq<Row>, s: string, c: Indicator, v: real)
    ensures Some(v) in GroupColumn(rows, s, c) <==>
      exists i :: 0 <= i < |rows| && rows[i].state == Some(s) && Get(rows[i], c) == Num(v)
  {
    if rows != [] {
      GroupColumnMembers(rows[1..], s, c, v);
      if exists i :: 0 <= i < |rows| && rows[i].state == Some(s) && Get(rows[i], c) == Num(v) {
        var i :| 0 <= i < |rows| && rows[i].state == Some(s) && Get(rows[i], c) == Num(v);
        if i > 0 {
          assert rows[1..][i - 1] == rows[i];
        }
      }
      if Some(v) in GroupColumn(rows[1..], s, c) {
        var i :| 0 <= i < |rows[1..]| && rows[1..][i].state == Some(s) && Get(rows[1..][i], c) == Num(v);
        assert rows[i + 1] == rows[1..][i];
      }
    }
  }

  /** A row's state together with its cell in column c. */
  function StateAndCell(c: Indicator): Row -> (Option<string>, Cell)
  {
    (r: Row) => (r.state, Get(r, c))
  }

  lemma {:induction false} GroupColumnCount(rows: seq<Row>, s: string, c: Indicator, v: real)
    ensures multiset(GroupColumn(rows, s, c))[Some(v)] ==
            multiset(MapSeq(StateAndCell(c), rows))[(Some(s), Num(v))]
  {
    if rows != [] {
      GroupColumnCount(rows[1..], s, c, v);
      var f := StateAndCell(c);
      assert MapSeq(f, rows) == [f(rows[0])] + MapSeq(f, rows[1..]);
      var head := if rows[0].state == Some(s) then [Value(Get(rows[0], c))] else [];
      assert GroupColumn(rows, s, c) == head + GroupColumn(rows[1..], s, c);
      assert multiset(head)[Some(v)] == multiset([f(rows[0])])[(Some(s), Num(v))];
    }
  }

  /**
   * Each row counts once: a value occurs in a state's group as many times as there are
   * rows of that state carrying that value, so the group mean is the unweighted mean
   * over the state's rows.
   */
  lemma GroupColumnMultiplicity(rows: seq<Row>, s: string, c: Indicator, v: real)
    ensures multiset(Present(GroupColumn(rows, s, c)))[v] ==
            multiset(MapSeq(StateAndCell(c), rows))[(Some(s), Num(v))]
  {
    PresentMultiplicity(GroupColumn(rows, s, c), v);
    GroupColumnCount(rows, s, c, v);
  }

  /** The aggregate has exactly one entry per state present in the frame. */
  lemma AggregateKeys(rows: seq<Row>)
    ensures AggregateByState(rows).Keys == States(rows)
    ensures forall i :: 0 <= i < |rows| && rows[i].state.Some? ==> rows[i].state.value in AggregateByState(rows)
  {
  }

  /**
   * Each state's mean of an indicator lies between the smallest and the largest value
   * that the state's rows carry; NaN cells are skipped, not counted as zero.
   */
  lemma GroupMeanWithinRowValues(rows: seq<Row>, s: string, c: Indicator, lo: real, hi: real)
    requires exists i :: 0 <= i < |rows| && rows[i].state == Some(s) && Get(rows[i], c).Num?
    requires forall i :: 0 <= i < |rows| && rows[i].state == Some(s) && Get(rows[i], c).Num? ==>
      lo <= Get(rows[i], c).v <= hi
    ensures GroupMean(rows, s, c).Some?
    ensures lo <= GroupMean(rows, s, c).value <= hi
  {
    var col := GroupColumn(rows, s, c);
    var vs := Present(col);
    PresentMembers(col);
    var i0 :| 0 <= i0 < |rows| && rows[i0].state == Some(s) && Get(rows[i0], c).Num?;
    GroupColumnMembers(rows, s, c, Get(rows[i0], c).v);
    assert Get(rows[i0], c).v in vs;
    forall k | 0 <= k < |vs| ensures lo <= vs[k] <= hi {
      assert vs[k] in vs;
      GroupColumnMembers(rows, s, c, vs[k]);
    }
    MeanBetween(vs, lo, hi);
  }

  /** A state none of whose rows has a value in column c has a NaN mean. */
  lemma GroupMeanAllMissing(rows: seq<Row>, s: string, c: Indicator)
    requires forall i :: 0 <= i < |rows| && rows[i].state == Some(s) ==> !Get(rows[i], c).Num?
    ensures GroupMean(rows, s, c) == None
  {
    var col := GroupColumn(rows, s, c);
    PresentMembers(col);
    if |Present(col)| > 0 {
      var v := Present(col)[0];
      assert v in Present(col);
      GroupColumnMembers(rows, s, c, v);
      assert false;
    }
  }

  /** Three rows of one state, the last with every indicator missing. */
  lemma GroupOfThree(r0: Row, r1: Row, r2: Row, s: string, c: Indicator)
    requires r0.state == Some(s) && r1.state == Some(s) && r2.state == Some(s)
    requires Get(r0, c).Num? && Get(r1, c).Num? && Get(r2, c) == Empty
    ensures Present(GroupColumn([r0, r1, r2], s, c)) == [Get(r0, c).v, Get(r1, c).v]
  {
    var rows := [r0, r1, r2];
    assert rows[1..] == [r1, r2] && rows[1..][1..] == [r2] && rows[1..][1..][1..] == [];
    var col := [Some(Get(r0, c).v), Some(Get(r1, c).v), None];
    assert GroupColumn([r2], s, c) == [None];
    assert GroupColumn([r1, r2], s, c) == col[1..];
    assert GroupColumn(rows, s, c) == col;
    assert col[1..] == [Some(Get(r1, c).v), None] && col[1..][1..] == [None] && col[1..][1..][1..] == [];
    assert Present([None]) == [];
    assert Present(col[1..]) == [Get(r1, c).v];
  }

  /**
   * An example: two districts of one state with rush 2.0 and 4.0 give a mean
   * rush of 3.0; a third district whose rush is NaN does not change it.
   */
  lemma AggregateExample()
    ensures var rows := [
              Row(Some("Goa"), "North Goa", Num(2.0), Num(0.5), Num(1.0), None, None, None),
              Row(Some("Goa"), "South Goa", Num(4.0), Num(0.7), Num(3.0), None, None, None),
              Row(Some("Goa"), "Unknown", Empty, Empty, Empty, None, None, None)];
            "Goa" in AggregateByState(rows) &&
            AggregateByState(rows)["Goa"] == StateMeans(Some(3.0), Some(0.6), Some(2.0))
  {
    var r0 := Row(Some("Goa"), "North Goa", Num(2.0), Num(0.5), Num(1.0), None, None, None);
    var r1 := Row(Some("Goa"), "South Goa", Num(4.0), Num(0.7), Num(3.0), None, None, None);
    var r2 := Row(Some("Goa"), "Unknown", Empty, Empty, Empty, None, None, None);
    var rows := [r0, r1, r2];
    assert "Goa" in States(rows) by { assert rows[0].state == Some("Goa"); }
    GroupOfThree(r0, r1, r2, "Goa", RushIndex);
    GroupOfThree(r0, r1, r2, "Goa", DigitalLiteracy);
    GroupOfThree(r0, r1, r2, "Goa", MigrationScore);
    MeanOfTwo(2.0, 4.0);
    MeanOfTwo(0.5, 0.7);
    MeanOfTwo(1.0, 3.0);
  }

  /** After the pipeline every aggregated state is a canonical name of `state_map`. */
  lemma AggregatedStatesAreCanonical(raw: seq<Row>)
    ensures AggregateByState(Pipeline(raw)).Keys <= StateMap.Values
  {
    PipelineOutput(raw);
  }
}
