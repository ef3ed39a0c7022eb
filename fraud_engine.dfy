/**
 * The scoring-and-classification engine of dashboard.py, as pure functions over the
 * rows of the `data` frame. Each function describes one step of the script: numeric
 * coercion, state normalisation, the risk score, the quantile-based category and the
 * recommended action. The `Dashboard` module runs the same steps as in-place updates.
 */
module FraudEngine {
  import opened Wrappers
  import opened NumericCoercion
  import opened Stats
  import opened StateMapper

  /**
   * One row of the `data` frame. `state` is NaN (None) after a failed lookup; the three
   * derived columns are None before the step that adds them (and NaN where pandas gives NaN).
   */
  datatype Row = Row(
    state: Option<string>,
    district: string,
    rushIndex: Cell,
    digitalLiteracy: Cell,
    migrationScore: Cell,
    riskScore: Option<real>,
    category: Option<string>,
    action: Option<string>)

  /** The three indicator columns, `num_cols`. */
  datatype Indicator = RushIndex | DigitalLiteracy | MigrationScore

  const NumCols: seq<Indicator> := [RushIndex, DigitalLiteracy, MigrationScore]

  function Get(r: Row, c: Indicator): Cell
  {
    match c
    case RushIndex => r.rushIndex
    case DigitalLiteracy => r.digitalLiteracy
    case MigrationScore => r.migrationScore
  }

  function Put(r: Row, c: Indicator, x: Cell): Row
  {
    match c
    case RushIndex => r.(rushIndex := x)
    case DigitalLiteracy => r.(digitalLiteracy := x)
    case MigrationScore => r.(migrationScore := x)
  }

  // ---------------------------------------------------------------------------
  // Step 1: `data[c] = pd.to_numeric(data[c], errors="coerce")` for c in num_cols
  // ---------------------------------------------------------------------------

  function CoerceColumn(rows: seq<Row>, c: Indicator): (out: seq<Row>)
  {
    seq(|rows|, i requires 0 <= i < |rows| => Put(rows[i], c, Coerce(Get(rows[i], c))))
  }

  /** The coercion loop over a prefix of `num_cols`, one column after another. */
  function CoerceColumns(rows: seq<Row>, cols: seq<Indicator>): seq<Row>
  {
    if cols == [] then rows
    else CoerceColumn(CoerceColumns(rows, cols[..|cols| - 1]), cols[|cols| - 1])
  }

  function CoerceNumeric(rows: seq<Row>): seq<Row>
  {
    CoerceColumns(rows, NumCols)
  }

  /**
   * The coercion loop coerces every indicator cell of every row and touches nothing
   * else: no row is dropped and no cell is left as text.
   */
  lemma CoerceNumericEffect(rows: seq<Row>)
    ensures |CoerceNumeric(rows)| == |rows|
    ensures forall i :: 0 <= i < |rows| ==>
      CoerceNumeric(rows)[i] == rows[i].(rushIndex := Coerce(rows[i].rushIndex),
                                         digitalLiteracy := Coerce(rows[i].digitalLiteracy),
                                         migrationScore := Coerce(rows[i].migrationScore))
    ensures forall i, c :: 0 <= i < |rows| ==> !Get(CoerceNumeric(rows)[i], c).Text?
  {
    var r1 := CoerceColumn(rows, RushIndex);
    var r2 := CoerceColumn(r1, DigitalLiteracy);
    var r3 := CoerceColumn(r2, MigrationScore);
    assert NumCols[..2][..1][..0] == [] && NumCols[..2][..1] == [RushIndex];
    assert NumCols[..2] == [RushIndex, DigitalLiteracy];
    assert CoerceColumns(rows, [RushIndex]) == r1;
    assert CoerceColumns(rows, [RushIndex, DigitalLiteracy]) == r2;
    assert CoerceNumeric(rows) == r3;
  }

  // ---------------------------------------------------------------------------
  // Step 2: `data["state"] = data["state"].map(state_map)`, then `dropna(subset=["state"])`
  // ---------------------------------------------------------------------------

  function CanonState(state: Option<string>): Option<string>
  {
    if state.Some? then Canon(state.value) else None
  }

  function MapStates(rows: seq<Row>): (out: seq<Row>)
  {
    seq(|rows|, i requires 0 <= i < |rows| => rows[i].(state := CanonState(rows[i].state)))
  }

  /** `dropna(subset=["state"])`: keep the rows whose state is present, in order. */
  function DropMissingStates(rows: seq<Row>): seq<Row>
  {
    if rows == [] then []
    else
      var last := rows[|rows| - 1];
      DropMissingStates(rows[..|rows| - 1]) + (if last.state.Some? then [last] else [])
  }

  predicate Mappable(r: Row)
  {
    r.state.Some? && r.state.value in StateMap
  }

  /** A row whose state is a key, with its state replaced by the canonical name. */
  function Canonicalised(r: Row): Row
    requires Mappable(r)
  {
    r.(state := Some(StateMap[r.state.value]))
  }

  function CountMappable(rows: seq<Row>): nat
  {
    if rows == [] then 0
    else CountMappable(rows[..|rows| - 1]) + (if Mappable(rows[|rows| - 1]) then 1 else 0)
  }

  /** Normalisation as one filter: keep exactly the rows whose state is a key, renamed. */
  function KeepMappable(rows: seq<Row>): seq<Row>
  {
    if rows == [] then []
    else
      var last := rows[|rows| - 1];
      KeepMappable(rows[..|rows| - 1]) + (if Mappable(last) then [Canonicalised(last)] else [])
  }

  function Normalise(rows: seq<Row>): seq<Row>
  {
    DropMissingStates(MapStates(rows))
  }

  /** Mapping then dropping NaN states is the same as keeping and renaming the mappable rows. */
  lemma {:induction false} NormaliseIsKeepMappable(rows: seq<Row>)
    ensures Normalise(rows) == KeepMappable(rows)
  {
    if rows != [] {
      var init := rows[..|rows| - 1];
      NormaliseIsKeepMappable(init);
      assert MapStates(rows)[..|rows| - 1] == MapStates(init);
    }
  }

  /**
   * After normalisation every surviving row carries a canonical state name; the rows
   * that survive are exactly the rows whose raw state is a key of `state_map`, renamed,
   * in their original order; every other row is removed and no row is invented.
   */
  lemma {:induction false} KeepMappableExactly(rows: seq<Row>)
    ensures |KeepMappable(rows)| == CountMappable(rows)
    ensures forall r :: r in KeepMappable(rows) ==> r.state.Some? && r.state.value in StateMap.Values
    ensures forall i :: 0 <= i < |rows| && Mappable(rows[i]) ==> Canonicalised(rows[i]) in KeepMappable(rows)
    ensures forall r :: r in KeepMappable(rows) ==>
      exists i :: 0 <= i < |rows| && Mappable(rows[i]) && r == Canonicalised(rows[i])
  {
    if rows != [] {
      var init := rows[..|rows| - 1];
      var last := rows[|rows| - 1];
      KeepMappableExactly(init);
      forall r | r in KeepMappable(rows)
        ensures exists i :: 0 <= i < |rows| && Mappable(rows[i]) && r == Canonicalised(rows[i])
      {
        if r in KeepMappable(init) {
          var i :| 0 <= i < |init| && Mappable(init[i]) && r == Canonicalised(init[i]);
          assert rows[i] == init[i];
        } else {
          assert r == Canonicalised(rows[|rows| - 1]);
        }
      }
      forall i | 0 <= i < |rows| && Mappable(rows[i])
        ensures Canonicalised(rows[i]) in KeepMappable(rows)
      {
        if i < |rows| - 1 {
          assert rows[i] == init[i];
        }
      }
    }
  }

  // ---------------------------------------------------------------------------
  // Step 3: the fraud risk score
  // ---------------------------------------------------------------------------

  /**
   * `0.4 * rush_index + 0.4 * migration_score + 0.2 * (1 - digital_literacy_score)`;
   * NaN as soon as one input is NaN.
   */
  function RiskScore(rush: Option<real>, migration: Option<real>, literacy: Option<real>): (r: Option<real>)
    ensures r.Some? <==> rush.Some? && migration.Some? && literacy.Some?
  {
    if rush.Some? && migration.Some? && literacy.Some? then
      Some(0.4 * rush.value + 0.4 * migration.value + 0.2 * (1.0 - literacy.value))
    else
      None
  }

  function RowRiskScore(r: Row): Option<real>
  {
    RiskScore(Value(r.rushIndex), Value(r.migrationScore), Value(r.digitalLiteracy))
  }

  function WithRiskScores(rows: seq<Row>): seq<Row>
  {
    seq(|rows|, i requires 0 <= i < |rows| => rows[i].(riskScore := RowRiskScore(rows[i])))
  }

  /** An example: rush 10, migration 1, literacy 0.9 score 4.42. */
  lemma RiskScoreExample()
    ensures RiskScore(Some(10.0), Some(1.0), Some(0.9)) == Some(4.42)
    ensures RiskScore(Some(1.0), Some(1.0), Some(0.1)) == Some(0.98)
  {
  }

  /**
   * The score rises with rush and migration and falls with literacy, by exactly the
   * weights 0.4, 0.4 and 0.2.
   */
  lemma RiskScoreWeights(rush: real, migration: real, literacy: real, d: real)
    ensures RiskScore(Some(rush + d), Some(migration), Some(literacy)).value
         == RiskScore(Some(rush), Some(migration), Some(literacy)).value + 0.4 * d
    ensures RiskScore(Some(rush), Some(migration + d), Some(literacy)).value
         == RiskScore(Some(rush), Some(migration), Some(literacy)).value + 0.4 * d
    ensures RiskScore(Some(rush), Some(migration), Some(literacy + d)).value
         == RiskScore(Some(rush), Some(migration), Some(literacy)).value - 0.2 * d
  {
  }

  /** With all three inputs in [0, 1] the score lies in [0, 1]. */
  lemma RiskScoreUnitRange(rush: real, migration: real, literacy: real)
    requires 0.0 <= rush <= 1.0 && 0.0 <= migration <= 1.0 && 0.0 <= literacy <= 1.0
    ensures 0.0 <= RiskScore(Some(rush), Some(migration), Some(literacy)).value <= 1.0
  {
  }

  /** No clamping: outside [0, 1] the score leaves [0, 1] in both directions. */
  lemma RiskScoreUnclamped(bound: real)
    requires bound >= 0.0
    ensures RiskScore(Some(3.0 * bound + 3.0), Some(0.0), Some(1.0)).value > bound
    ensures RiskScore(Some(0.0), Some(0.0), Some(6.0)) == Some(-1.0)
  {
  }

  // ---------------------------------------------------------------------------
  // Step 4: `classify_fraud` against the population's quantile thresholds
  // ---------------------------------------------------------------------------

  datatype Category = HighRiskFraud | MigrationFraud | DigitalMisuseRisk | Normal
  {
    /** The literal stored in the `fraud_category` column. */
    function Label(): string
    {
      match this
      case HighRiskFraud => "High-Risk Aadhaar Fraud"
      case MigrationFraud => "Possible Duplicate / Migration Fraud"
      case DigitalMisuseRisk => "Digital Identity Misuse Risk"
      case Normal => "Normal"
    }
  }

  /** The three thresholds, each NaN (None) when its column has no value. */
  datatype Thresholds = Thresholds(risk: Option<real>, migration: Option<real>, literacy: Option<real>)

  function RiskOf(r: Row): Option<real> { r.riskScore }
  function MigrationOf(r: Row): Option<real> { Value(r.migrationScore) }
  function LiteracyOf(r: Row): Option<real> { Value(r.digitalLiteracy) }

  /** Q90 of the risk score, Q90 of migration and Q25 of literacy over the whole frame. */
  function PopulationThresholds(rows: seq<Row>): Thresholds
  {
    Thresholds(
      Quantile(MapSeq(RiskOf, rows), 0.9),
      Quantile(MapSeq(MigrationOf, rows), 0.9),
      Quantile(MapSeq(LiteracyOf, rows), 0.25))
  }

  /** `a > b` on floats: false as soon as either side is NaN. */
  predicate Above(a: Option<real>, b: Option<real>)
  {
    a.Some? && b.Some? && a.value > b.value
  }

  /** `a < b` on floats: false as soon as either side is NaN. */
  predicate Below(a: Option<real>, b: Option<real>)
  {
    a.Some? && b.Some? && a.value < b.value
  }

  /** `classify_fraud(row)`: four rules, first match wins. */
  function Classify(r: Row, t: Thresholds): Category
  {
    if Above(r.riskScore, t.risk) then HighRiskFraud
    else if Above(Value(r.migrationScore), t.migration) then MigrationFraud
    else if Below(Value(r.digitalLiteracy), t.literacy) then DigitalMisuseRisk
    else Normal
  }

  /** The rule table as data: rule k's condition, rule 3 being the fallback. */
  predicate RuleFires(k: nat, r: Row, t: Thresholds)
    requires k < 4
  {
    if k == 0 then Above(r.riskScore, t.risk)
    else if k == 1 then Above(Value(r.migrationScore), t.migration)
    else if k == 2 then Below(Value(r.digitalLiteracy), t.literacy)
    else true
  }

  /** The position of a category's rule in the table. */
  function RuleOf(c: Category): (k: nat)
    ensures k < 4
  {
    match c
    case HighRiskFraud => 0
    case MigrationFraud => 1
    case DigitalMisuseRisk => 2
    case Normal => 3
  }

  /**
   * First match wins: a row's category is the category of the first rule of the table
   * whose condition holds; every earlier rule fails.
   */
  lemma ClassifyIsFirstMatch(r: Row, t: Thresholds)
    ensures RuleFires(RuleOf(Classify(r, t)), r, t)
    ensures forall k :: 0 <= k < RuleOf(Classify(r, t)) ==> !RuleFires(k, r, t)
  {
  }

  /** Every category has its own label, so a label names exactly one category. */
  lemma LabelsDistinct(c: Category, d: Category)
    ensures c.Label() == d.Label() <==> c == d
  {
  }

  /**
   * Rule 1 wins over rule 2: a score above Q90 is high-risk whatever the migration,
   * and migration fraud is only reported when the score is not above Q90.
   */
  lemma HighRiskTakesPriority(r: Row, t: Thresholds)
    ensures Above(r.riskScore, t.risk) ==> Classify(r, t) == HighRiskFraud
    ensures Classify(r, t) == MigrationFraud <==>
      !Above(r.riskScore, t.risk) && Above(Value(r.migrationScore), t.migration)
  {
  }

  /** A NaN input can only fail its own rule: each rule needs its own inputs present. */
  lemma MissingInputsFailTheirRules(r: Row, t: Thresholds)
    ensures r.riskScore.None? || t.risk.None? ==> Classify(r, t) != HighRiskFraud
    ensures !r.migrationScore.Num? || t.migration.None? ==> Classify(r, t) != MigrationFraud
    ensures !r.digitalLiteracy.Num? || t.literacy.None? ==> Classify(r, t) != DigitalMisuseRisk
    ensures r.riskScore.None? && !r.migrationScore.Num? && !r.digitalLiteracy.Num? ==>
      Classify(r, t) == Normal
  {
  }

  /** One row with its `fraud_category` cell filled in against thresholds t. */
  function Categorise(r: Row, t: Thresholds): Row
  {
    r.(category := Some(Classify(r, t).Label()))
  }

  function CategoriseAll(rows: seq<Row>, t: Thresholds): seq<Row>
  {
    seq(|rows|, i requires 0 <= i < |rows| => Categorise(rows[i], t))
  }

  function WithCategories(rows: seq<Row>): seq<Row>
  {
    CategoriseAll(rows, PopulationThresholds(rows))
  }

  /**
   * Thresholds are a property of the population: reordering the frame changes no
   * threshold, so a row's category depends on the row and on the multiset of rows only.
   */
  lemma CategoryDependsOnRowAndPopulation(r: Row, rows: seq<Row>, rows': seq<Row>)
    requires multiset(rows) == multiset(rows')
    ensures PopulationThresholds(rows) == PopulationThresholds(rows')
    ensures Classify(r, PopulationThresholds(rows)) == Classify(r, PopulationThresholds(rows'))
  {
    MapSeqOfPermutation(RiskOf, rows, rows');
    MapSeqOfPermutation(MigrationOf, rows, rows');
    MapSeqOfPermutation(LiteracyOf, rows, rows');
    QuantileOfPermutation(MapSeq(RiskOf, rows), MapSeq(RiskOf, rows'), 0.9);
    QuantileOfPermutation(MapSeq(MigrationOf, rows), MapSeq(MigrationOf, rows'), 0.9);
    QuantileOfPermutation(MapSeq(LiteracyOf, rows), MapSeq(LiteracyOf, rows'), 0.25);
  }

  /**
   * The comparisons are strict: when every present score is the same, no row exceeds Q90
   * and no row is high-risk; rows whose score is NaN never are.
   */
  lemma NoHighRiskWhenScoresEqual(rows: seq<Row>, c: real)
    requires exists i :: 0 <= i < |rows| && rows[i].riskScore.Some?
    requires forall i :: 0 <= i < |rows| && rows[i].riskScore.Some? ==> rows[i].riskScore.value == c
    ensures forall i :: 0 <= i < |rows| ==>
      WithCategories(rows)[i].category != Some(HighRiskFraud.Label())
  {
    var t := PopulationThresholds(rows);
    NoRowAboveConstantQuantile(rows, t, c);
    forall i | 0 <= i < |rows|
      ensures WithCategories(rows)[i].category != Some(HighRiskFraud.Label())
    {
      assert WithCategories(rows)[i] == Categorise(rows[i], t);
      LabelsDistinct(Classify(rows[i], t), HighRiskFraud);
    }
  }

  /** Against a risk cut that is the Q90 of equal present scores, no row passes rule 1. */
  lemma {:induction false} NoRowAboveConstantQuantile(rows: seq<Row>, t: Thresholds, c: real)
    requires t.risk == Quantile(MapSeq(RiskOf, rows), 0.9)
    requires exists i :: 0 <= i < |rows| && rows[i].riskScore.Some?
    requires forall i :: 0 <= i < |rows| && rows[i].riskScore.Some? ==> rows[i].riskScore.value == c
    ensures forall i :: 0 <= i < |rows| ==> Classify(rows[i], t) != HighRiskFraud
  {
    RiskColumnConstant(rows, c);
    QuantileOfConstant(MapSeq(RiskOf, rows), 0.9, c);
    forall i | 0 <= i < |rows| ensures Classify(rows[i], t) != HighRiskFraud {
      assert !Above(rows[i].riskScore, Some(c));
    }
  }

  /** The score column has a value exactly when some row is scored. */
  lemma {:induction false} RiskColumnPresent(rows: seq<Row>)
    requires exists i :: 0 <= i < |rows| && rows[i].riskScore.Some?
    ensures exists i :: 0 <= i < |MapSeq(RiskOf, rows)| && MapSeq(RiskOf, rows)[i].Some?
  {
    var i0 :| 0 <= i0 < |rows| && rows[i0].riskScore.Some?;
    assert MapSeq(RiskOf, rows)[i0].Some?;
  }

  lemma {:induction false} RiskColumnConstant(rows: seq<Row>, c: real)
    requires exists i :: 0 <= i < |rows| && rows[i].riskScore.Some?
    requires forall i :: 0 <= i < |rows| && rows[i].riskScore.Some? ==> rows[i].riskScore.value == c
    ensures exists i :: 0 <= i < |MapSeq(RiskOf, rows)| && MapSeq(RiskOf, rows)[i].Some?
    ensures forall i :: 0 <= i < |MapSeq(RiskOf, rows)| && MapSeq(RiskOf, rows)[i].Some? ==>
      MapSeq(RiskOf, rows)[i].value == c
  {
    var col := MapSeq(RiskOf, rows);
    RiskColumnPresent(rows);
    forall i | 0 <= i < |col| && col[i].Some? ensures col[i].value == c {
      assert col[i] == RiskOf(rows[i]);
    }
  }

  /** A row whose score is at most the risk threshold escapes rule 1. */
  lemma {:induction false} ScoreBelowThreshold(rows: seq<Row>, t: Thresholds)
    requires t.risk == Quantile(MapSeq(RiskOf, rows), 0.9)
    requires exists i :: 0 <= i < |rows| && rows[i].riskScore.Some?
    ensures exists i :: 0 <= i < |rows| && rows[i].riskScore.Some? && Classify(rows[i], t) != HighRiskFraud
  {
    RiskColumnPresent(rows);
    var col := MapSeq(RiskOf, rows);
    var i := ValueAtMostQuantile(col, 0.9);
    assert rows[i].riskScore == col[i];
    assert !Above(rows[i].riskScore, t.risk);
  }

  /** Q90 is never below every score, so some scored row always escapes rule 1. */
  lemma SomeScoredRowIsNotHighRisk(rows: seq<Row>)
    requires exists i :: 0 <= i < |rows| && rows[i].riskScore.Some?
    ensures exists i :: (0 <= i < |rows| && rows[i].riskScore.Some? &&
      Classify(rows[i], PopulationThresholds(rows)) != HighRiskFraud)
  {
    ScoreBelowThreshold(rows, PopulationThresholds(rows));
  }

  /** A frame of a single row classifies it as normal: the row is its own threshold. */
  lemma SingleRowIsNormal(r: Row)
    ensures Classify(r, PopulationThresholds([r])) == Normal
  {
    assert MapSeq(RiskOf, [r]) == [RiskOf(r)];
    assert MapSeq(MigrationOf, [r]) == [MigrationOf(r)];
    assert MapSeq(LiteracyOf, [r]) == [LiteracyOf(r)];
    QuantileOfSingleton(RiskOf(r), 0.9);
    QuantileOfSingleton(MigrationOf(r), 0.9);
    QuantileOfSingleton(LiteracyOf(r), 0.25);
  }

  /**
   * Classification is not context-free: the same row is normal on its own and
   * high-risk once a lower-scoring row joins the population. The scores are the rows'
   * own scores, 0.9 and 0.5, and Q90 of [0.5, 0.9] is 0.86.
   */
  lemma PopulationChangesCategory()
    ensures var r := Row(Some("Goa"), "North Goa", Num(1.0), Num(0.5), Num(1.0), Some(0.9), None, None);
            var low := Row(Some("Goa"), "South Goa", Num(0.0), Num(0.5), Num(1.0), Some(0.5), None, None);
            r.riskScore == RowRiskScore(r) && low.riskScore == RowRiskScore(low) &&
            Classify(r, PopulationThresholds([r])) == Normal &&
            Classify(r, PopulationThresholds([r, low])) == HighRiskFraud
  {
    var r := Row(Some("Goa"), "North Goa", Num(1.0), Num(0.5), Num(1.0), Some(0.9), None, None);
    var low := Row(Some("Goa"), "South Goa", Num(0.0), Num(0.5), Num(1.0), Some(0.5), None, None);
    assert RowRiskScore(r) == Some(0.9) && RowRiskScore(low) == Some(0.5);
    SingleRowIsNormal(r);
    var col := MapSeq(RiskOf, [r, low]);
    assert col == [Some(0.9), Some(0.5)];
    QuantileOfPair(0.5, 0.9, 0.9);
    assert PopulationThresholds([r, low]).risk == Some(0.86);
  }

  // ---------------------------------------------------------------------------
  // Step 5: `data["recommended_action"] = data["fraud_category"].map(action_map)`
  // ---------------------------------------------------------------------------

  const ActionMap: map<string, string> := map[
    "High-Risk Aadhaar Fraud" := "Immediate field audit & biometric re-verification",
    "Possible Duplicate / Migration Fraud" := "Cross-state Aadhaar linkage review",
    "Digital Identity Misuse Risk" := "Local Aadhaar awareness & assisted update drive",
    "Normal" := "No action required"
  ]

  /** `Series.map(action_map)` on one cell: NaN for NaN or an unknown label. */
  function LookupAction(category: Option<string>): Option<string>
  {
    if category.Some? && category.value in ActionMap then Some(ActionMap[category.value]) else None
  }

  function WithActions(rows: seq<Row>): seq<Row>
  {
    seq(|rows|, i requires 0 <= i < |rows| => rows[i].(action := LookupAction(rows[i].category)))
  }

  /**
   * The action table is total on the four labels and one-to-one: every category has
   * exactly one action, distinct categories have distinct actions, and the table has
   * no other key.
   */
  lemma ActionMapIsOneToOne(c: Category, d: Category)
    ensures c.Label() in ActionMap
    ensures ActionMap.Keys ==
      {HighRiskFraud.Label(), MigrationFraud.Label(), DigitalMisuseRisk.Label(), Normal.Label()}
    ensures ActionMap[c.Label()] == ActionMap[d.Label()] <==> c == d
  {
  }

  /**
   * After categorising, every row carries the label of its category and the action of
   * that label: the action column is never NaN and depends on the category alone.
   */
  lemma ActionNeverMissing(rows: seq<Row>)
    ensures |WithActions(WithCategories(rows))| == |rows|
    ensures forall i :: 0 <= i < |rows| ==>
      var r := WithActions(WithCategories(rows))[i];
      var c := Classify(rows[i], PopulationThresholds(rows));
      r.category == Some(c.Label()) && r.action == Some(ActionMap[c.Label()])
  {
    forall c: Category ensures c.Label() in ActionMap {
      ActionMapIsOneToOne(c, c);
    }
  }

  // ---------------------------------------------------------------------------
  // The pipeline of the script, start to end
  // ---------------------------------------------------------------------------

  function Pipeline(raw: seq<Row>): seq<Row>
  {
    WithActions(WithCategories(WithRiskScores(Normalise(CoerceNumeric(raw)))))
  }

  lemma {:induction false} CountMappableByState(a: seq<Row>, b: seq<Row>)
    requires |a| == |b|
    requires forall i :: 0 <= i < |a| ==> a[i].state == b[i].state
    ensures CountMappable(a) == CountMappable(b)
  {
    if a != [] {
      CountMappableByState(a[..|a| - 1], b[..|b| - 1]);
    }
  }

  /** Normalisation leaves the indicator cells alone: no text cell appears. */
  lemma {:induction false} KeepMappableKeepsNumbers(rows: seq<Row>)
    requires forall i, c :: 0 <= i < |rows| ==> !Get(rows[i], c).Text?
    ensures forall i, c :: 0 <= i < |KeepMappable(rows)| ==> !Get(KeepMappable(rows)[i], c).Text?
  {
    if rows != [] {
      var init, last := rows[..|rows| - 1], rows[|rows| - 1];
      KeepMappableKeepsNumbers(init);
      var front := KeepMappable(init);
      var tail := if Mappable(last) then [Canonicalised(last)] else [];
      assert KeepMappable(rows) == front + tail;
      forall i, c | 0 <= i < |front + tail|
        ensures !Get((front + tail)[i], c).Text?
      {
        if i >= |front| {
          assert (front + tail)[i] == Canonicalised(last);
          assert Get(Canonicalised(last), c) == Get(last, c);
        }
      }
    }
  }

  /** The rows that survive coercion and normalisation: canonical states, no text cells. */
  lemma NormalisedRowsClean(raw: seq<Row>)
    ensures |Normalise(CoerceNumeric(raw))| == CountMappable(raw)
    ensures forall i :: 0 <= i < |Normalise(CoerceNumeric(raw))| ==>
      var r := Normalise(CoerceNumeric(raw))[i];
      r.state.Some? && r.state.value in StateMap.Values && forall c :: !Get(r, c).Text?
  {
    var coerced := CoerceNumeric(raw);
    CoerceNumericEffect(raw);
    CountMappableByState(coerced, raw);
    NormaliseIsKeepMappable(coerced);
    KeepMappableExactly(coerced);
    KeepMappableKeepsNumbers(coerced);
    var kept := KeepMappable(coerced);
    forall i | 0 <= i < |kept|
      ensures kept[i].state.Some? && kept[i].state.value in StateMap.Values
    {
      assert kept[i] in kept;
    }
  }

  /**
   * End to end: the output has one row per input row whose state is a key of
   * `state_map`; each carries a canonical state, numeric-or-NaN indicators, the risk
   * score of its own indicators, and a category and action that are never NaN.
   */
  lemma PipelineOutput(raw: seq<Row>)
    ensures |Pipeline(raw)| == CountMappable(raw)
    ensures forall i :: 0 <= i < |Pipeline(raw)| ==>
      var r := Pipeline(raw)[i];
      && r.state.Some? && r.state.value in StateMap.Values
      && (forall c :: !Get(r, c).Text?)
      && r.riskScore == RowRiskScore(r)
      && (exists c: Category :: r.category == Some(c.Label()) && r.action == Some(ActionMap[c.Label()]))
  {
    var kept := Normalise(CoerceNumeric(raw));
    NormalisedRowsClean(raw);
    var scored := WithRiskScores(kept);
    ActionNeverMissing(scored);
    var out := Pipeline(raw);
    assert out == WithActions(WithCategories(scored));
    var t := PopulationThresholds(scored);
    forall i | 0 <= i < |out|
      ensures var r := out[i];
        && r.state.Some? && r.state.value in StateMap.Values
        && (forall c :: !Get(r, c).Text?)
        && r.riskScore == RowRiskScore(r)
        && (exists c: Category :: r.category == Some(c.Label()) && r.action == Some(ActionMap[c.Label()]))
    {
      var cat := Classify(scored[i], t);
      assert out[i] == kept[i].(riskScore := RowRiskScore(kept[i]),
                                category := Some(cat.Label()),
                                action := Some(ActionMap[cat.Label()]));
      assert forall c :: Get(out[i], c) == Get(kept[i], c);
    }
  }
}
