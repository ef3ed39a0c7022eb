/**
 * The script body of dashboard.py as it runs: one `data` frame changed in place, step
 * by step. Each method performs one statement of the script and is proved to leave the
 * frame equal to the corresponding function of `FraudEngine` applied to the old frame.
 */
module Dashboard {
  import opened NumericCoercion
  import opened StateMapper
  import opened FraudEngine
  import opened Aggregation

  class Frame {
    var rows: seq<Row>

    /** The frame as loaded by `read_csv`. */
    constructor (loaded: seq<Row>)
      ensures rows == loaded
    {
      rows := loaded;
    }

    /** `data[c] = pd.to_numeric(data[c], errors="coerce")` for one column. */
    method CoerceColumn(c: Indicator)
      modifies this
      ensures rows == FraudEngine.CoerceColumn(old(rows), c)
    {
      var column: seq<Row> := [];
      var i := 0;
      while i < |rows|
        invariant 0 <= i <= |rows|
        invariant |column| == i
        invariant forall k :: 0 <= k < i ==> column[k] == Put(rows[k], c, Coerce(Get(rows[k], c)))
      {
        column := column + [Put(rows[i], c, Coerce(Get(rows[i], c)))];
        i := i + 1;
      }
      rows := column;
    }

    /** The loop `for c in num_cols`. */
    method CoerceNumeric()
      modifies this
      ensures rows == FraudEngine.CoerceNumeric(old(rows))
    {
      for k := 0 to |NumCols|
        invariant rows == CoerceColumns(old(rows), NumCols[..k])
      {
        CoerceColumn(NumCols[k]);
        assert NumCols[..k + 1][..k] == NumCols[..k];
      }
      assert NumCols[..|NumCols|] == NumCols;
    }

    /** `data["state"] = data["state"].map(state_map)`. */
    method MapStates()
      modifies this
      ensures rows == FraudEngine.MapStates(old(rows))
    {
      var column: seq<Row> := [];
      var i := 0;
      while i < |rows|
        invariant 0 <= i <= |rows|
        invariant |column| == i
        invariant forall k :: 0 <= k < i ==> column[k] == rows[k].(state := CanonState(rows[k].state))
      {
        column := column + [rows[i].(state := CanonState(rows[i].state))];
        i := i + 1;
      }
      rows := column;
    }

    /** `data = data.dropna(subset=["state"])`. */
    method DropMissingStates()
      modifies this
      ensures rows == FraudEngine.DropMissingStates(old(rows))
    {
      var kept: seq<Row> := [];
      var i := 0;
      while i < |rows|
        invariant 0 <= i <= |rows|
        invariant kept == FraudEngine.DropMissingStates(rows[..i])
      {
        assert rows[..i + 1][..i] == rows[..i];
        if rows[i].state.Some? {
          kept := kept + [rows[i]];
        }
        i := i + 1;
      }
      assert rows[..|rows|] == rows;
      rows := kept;
    }

    /** `data["fraud_risk_score"] = 0.4 * rush + 0.4 * migration + 0.2 * (1 - literacy)`. */
    method AddRiskScore()
      modifies this
      ensures rows == WithRiskScores(old(rows))
    {
      var column: seq<Row> := [];
      var i := 0;
      while i < |rows|
        invariant 0 <= i <= |rows|
        invariant |column| == i
        invariant forall k :: 0 <= k < i ==> column[k] == rows[k].(riskScore := RowRiskScore(rows[k]))
      {
        column := column + [rows[i].(riskScore := RowRiskScore(rows[i]))];
        i := i + 1;
      }
      rows := column;
    }

    /**
     * `data["fraud_category"] = data.apply(classify_fraud, axis=1)`: every row is
     * classified against thresholds of the frame as it is before the column is added.
     */
    method AddCategory()
      modifies this
      ensures rows == WithCategories(old(rows))
    {
      var t := PopulationThresholds(rows);
      var column: seq<Row> := [];
      var i := 0;
      while i < |rows|
        invariant 0 <= i <= |rows|
        invariant |column| == i
        invariant forall k :: 0 <= k < i ==> column[k] == Categorise(rows[k], t)
      {
        column := column + [Categorise(rows[i], t)];
        i := i + 1;
      }
      assert column == CategoriseAll(rows, t);
      rows := column;
    }

    /** `data["recommended_action"] = data["fraud_category"].map(action_map)`. */
    method AddAction()
      modifies this
      ensures rows == WithActions(old(rows))
    {
      var column: seq<Row> := [];
      var i := 0;
      while i < |rows|
        invariant 0 <= i <= |rows|
        invariant |column| == i
        invariant forall k :: 0 <= k < i ==> column[k] == rows[k].(action := LookupAction(rows[k].category))
      {
        column := column + [rows[i].(action := LookupAction(rows[i].category))];
        i := i + 1;
      }
      rows := column;
    }
  }

  /**
   * The engine part of the script, start to end: load, coerce, normalise, score,
   * classify, attach actions, then aggregate per state.
   */
  method RunPipeline(loaded: seq<Row>) returns (data: seq<Row>, stateData: map<string, StateMeans>)
    ensures data == Pipeline(loaded)
    ensures |data| == CountMappable(loaded)
    ensures forall i :: 0 <= i < |data| ==>
      data[i].state.Some? && data[i].state.value in StateMap.Values &&
      data[i].category.Some? && data[i].action.Some?
    ensures stateData == AggregateByState(data)
    ensures stateData.Keys <= StateMap.Values
  {
    var frame := new Frame(loaded);
    frame.CoerceNumeric();
    frame.MapStates();
    frame.DropMissingStates();
    frame.AddRiskScore();
    frame.AddCategory();
    frame.AddAction();
    data := frame.rows;
    PipelineOutput(loaded);
    stateData := AggregateByState(data);
    AggregatedStatesAreCanonical(loaded);
  }
}
