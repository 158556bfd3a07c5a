/**
 * The category classifier of FinanceAI: training from the labelled rows, the model
 * held in the object and in the model file, and the in-place fill-in of the rows whose
 * category is missing, empty or "Misc".
 */
module Categorizer {
  import opened Transactions

  /** One training example of the classifier: a description and its category label. */
  datatype Example = Example(description: string, category: string)

  /**
   * A fitted TF-IDF + random-forest pipeline. Fitting uses a fixed seed, so the pipeline
   * is determined by its training sample; what it predicts for a description is a
   * parameter (`classify`) of the operations that use it.
   */
  datatype Classifier = Fitted(sample: seq<Example>)

  const NOT_ENOUGH_DATA: string := "Not enough data to train."
  const TOO_FEW_LABELED: string := "Need at least 10 categorized transactions to train."
  const TRAINED: string := "Model trained successfully."

  /** The fewest rows with a category that training accepts. */
  const MIN_LABELED: nat := 10

  /** The training sample: the rows whose category is not missing, in table order. */
  function Labeled(rows: seq<Row>): seq<Example>
  {
    if rows == [] then []
    else
      var last := rows[|rows| - 1];
      Labeled(rows[..|rows| - 1]) + (if last.category.Some? then [Example(last.description, last.category.value)] else [])
  }

  /** The positions of the rows whose category is not missing (an empty or "Misc" label is present). */
  function LabeledPositions(rows: seq<Row>): set<nat>
  {
    set i: nat | i < |rows| && rows[i].category.Some?
  }

  /**
   * The training sample holds one example per row with a category, whatever that
   * category is (empty and "Misc" included).
   */
  lemma {:induction false} LabeledCount(rows: seq<Row>)
    ensures |Labeled(rows)| == |LabeledPositions(rows)|
  {
    if rows != [] {
      var n := |rows| - 1;
      var init := rows[..n];
      LabeledCount(init);
      assert forall i :: 0 <= i < n ==> init[i] == rows[i];
      if rows[n].category.Some? {
        assert LabeledPositions(rows) == LabeledPositions(init) + {n};
      } else {
        assert LabeledPositions(rows) == LabeledPositions(init);
      }
    }
  }

  /** Each training example is the description and label of a row with a category, and each such row gives one. */
  lemma {:induction false} LabeledMembers(rows: seq<Row>, e: Example)
    ensures e in Labeled(rows) <==>
      exists i :: 0 <= i < |rows| && rows[i].category.Some? &&
                  e == Example(rows[i].description, rows[i].category.value)
  {
    if rows != [] {
      var n := |rows| - 1;
      var init := rows[..n];
      LabeledMembers(init, e);
      if e in Labeled(rows) && e !in Labeled(init) {
        assert rows[n].category.Some? && e == Example(rows[n].description, rows[n].category.value);
      }
      if exists i :: 0 <= i < |rows| && rows[i].category.Some? &&
                     e == Example(rows[i].description, rows[i].category.value) {
        var i :| 0 <= i < |rows| && rows[i].category.Some? &&
                 e == Example(rows[i].description, rows[i].category.value);
        if i < n {
          assert init[i] == rows[i];
        }
      }
    }
  }

  /** The test table of three labelled rows is below the training threshold. */
  lemma ThreeLabeledRowsAreTooFew(d: int, a: real, p: int)
    ensures
      var rows := [Row(d, "Uber", a, Some("Transport"), p),
                   Row(d, "Starbucks", a, Some("Food"), p),
                   Row(d, "Shell", a, Some("Transport"), p)];
      |LabeledPositions(rows)| == 3 < MIN_LABELED
  {
    var rows := [Row(d, "Uber", a, Some("Transport"), p),
                 Row(d, "Starbucks", a, Some("Food"), p),
                 Row(d, "Shell", a, Some("Transport"), p)];
    assert LabeledPositions(rows) == {0, 1, 2};
  }

  /** The prediction mask: the category is missing, empty or the "Misc" placeholder. */
  predicate NeedsCategory(r: Row)
  {
    r.category == None || r.category == Some("") || r.category == Some(MISC)
  }

  /**
   * The table after prediction: every masked row gets the model's category for its
   * description and the predicted flag 1; every other row is kept.
   */
  function FillCategories(rows: seq<Row>, model: Classifier, classify: (Classifier, string) -> string): seq<Row>
  {
    seq(|rows|, i requires 0 <= i < |rows| =>
      if NeedsCategory(rows[i])
      then rows[i].(category := Some(classify(model, rows[i].description)), isPredicted := 1)
      else rows[i])
  }

  /**
   * Prediction changes cells only in masked rows, and there only the category and the
   * flag: the row count and order, and the date, description and amount of every row,
   * are kept; a row with a real category is left exactly as it was.
   */
  lemma FillCategoriesSpec(rows: seq<Row>, model: Classifier, classify: (Classifier, string) -> string)
    ensures |FillCategories(rows, model, classify)| == |rows|
    ensures forall i :: 0 <= i < |rows| ==>
      var r := FillCategories(rows, model, classify)[i];
      && r.date == rows[i].date
      && r.description == rows[i].description
      && r.amount == rows[i].amount
      && (NeedsCategory(rows[i]) ==>
            r.category == Some(classify(model, rows[i].description)) && r.isPredicted == 1)
      && (!NeedsCategory(rows[i]) ==> r == rows[i])
  {
  }

  /**
   * When the model never answers an empty label or "Misc", prediction leaves no row to
   * predict, and predicting again changes nothing.
   */
  lemma FillCategoriesIdempotent(rows: seq<Row>, model: Classifier, classify: (Classifier, string) -> string)
    requires forall i :: 0 <= i < |rows| ==> classify(model, rows[i].description) !in {"", MISC}
    ensures forall i :: 0 <= i < |rows| ==> !NeedsCategory(FillCategories(rows, model, classify)[i])
    ensures FillCategories(FillCategories(rows, model, classify), model, classify) == FillCategories(rows, model, classify)
  {
    var once := FillCategories(rows, model, classify);
    forall i | 0 <= i < |rows| ensures !NeedsCategory(once[i]) {
      if NeedsCategory(rows[i]) {
        assert once[i].category == Some(classify(model, rows[i].description));
      }
    }
  }

  /** The model file: the persisted classifier, absent until the first training. */
  class ModelFile {
    var saved: Option<Classifier>

    constructor ()
      ensures saved == None
    {
      saved := None;
    }
  }

  /** The engine: the classifier it holds in memory, and the model file it shares. */
  class FinanceAI {
    var categoryModel: Option<Classifier>
    const modelFile: ModelFile

    constructor (modelFile: ModelFile)
      ensures categoryModel == None
      ensures this.modelFile == modelFile
    {
      categoryModel := None;
      this.modelFile := modelFile;
    }

    /**
     * Trains the classifier on the rows whose category is present. An empty table or
     * one without a category column, and a table with fewer than ten labelled rows,
     * are refused with a status message and leave both the held model and the model
     * file as they were; otherwise the new model replaces both.
     */
    method TrainCategorizer(rows: seq<Row>, hasCategoryColumn: bool) returns (msg: string)
      modifies this, modelFile
      ensures |rows| == 0 || !hasCategoryColumn ==> msg == NOT_ENOUGH_DATA
      ensures |rows| > 0 && hasCategoryColumn && |LabeledPositions(rows)| < MIN_LABELED ==> msg == TOO_FEW_LABELED
      ensures |rows| > 0 && hasCategoryColumn && |LabeledPositions(rows)| >= MIN_LABELED ==> msg == TRAINED
      ensures msg == TRAINED ==>
        categoryModel == Some(Fitted(Labeled(rows))) && modelFile.saved == categoryModel
      ensures msg != TRAINED ==>
        categoryModel == old(categoryModel) && modelFile.saved == old(modelFile.saved)
    {
      if |rows| == 0 || !hasCategoryColumn {
        return NOT_ENOUGH_DATA;
      }
      var trainingData := Labeled(rows);
      LabeledCount(rows);
      if |trainingData| < MIN_LABELED {
        return TOO_FEW_LABELED;
      }
      var pipeline := Fitted(trainingData);
      categoryModel := Some(pipeline);
      modelFile.saved := Some(pipeline);
      msg := TRAINED;
    }

    /**
     * Fills in the categories of the caller's table in place. Without a model in memory
     * the one in the model file is loaded and kept; without either the table is left
     * unchanged. Otherwise the masked rows, chosen before any cell changes, get the
     * model's category and the predicted flag.
     */
    method PredictCategories(df: array<Row>, classify: (Classifier, string) -> string)
      modifies this, df
      ensures old(categoryModel).Some? ==> categoryModel == old(categoryModel)
      ensures old(categoryModel).None? ==> categoryModel == modelFile.saved
      ensures categoryModel.None? ==> df[..] == old(df[..])
      ensures categoryModel.Some? ==> df[..] == FillCategories(old(df[..]), categoryModel.value, classify)
    {
      if categoryModel.None? {
        if modelFile.saved.Some? {
          categoryModel := modelFile.saved;
        } else {
          return;
        }
      }
      var model := categoryModel.value;
      forall i | 0 <= i < df.Length && NeedsCategory(df[i]) {
        df[i] := df[i].(category := Some(classify(model, df[i].description)), isPredicted := 1);
      }
    }
  }

  /**
   * The model survives the process: an engine that trains on enough labelled rows
   * writes the model file, and a fresh engine over the same file predicts with that
   * very model, without training again.
   */
  method TrainThenPredictInNewSession(modelFile: ModelFile, training: seq<Row>, df: array<Row>,
                                      classify: (Classifier, string) -> string)
    requires |LabeledPositions(training)| >= MIN_LABELED
    modifies modelFile, df
    ensures modelFile.saved == Some(Fitted(Labeled(training)))
    ensures df[..] == FillCategories(old(df[..]), Fitted(Labeled(training)), classify)
  {
    var first := new FinanceAI(modelFile);
    var msg := first.TrainCategorizer(training, true);
    var second := new FinanceAI(modelFile);
    second.PredictCategories(df, classify);
  }
}
