/**
 * Where the evaluation results go and how a result row is prepared for
 * printing (`save_results` and `format_result` in IDSGAN/test_wgan.py).
 * Writing the CSV file and rendering the table are I/O and are not modelled;
 * the rendering of one score as text is a parameter.
 */
module Results {
  import opened Wrappers
  import opened Panel

  /** What is passed to `save_results` as its second argument: a plain
      string, or an argparse namespace, which carries a `name` attribute. */
  datatype SaveTarget = PlainString(text: string) | Namespace(name: string)

  /** `hasattr(options, 'name')`: a str has no attribute `name`. */
  predicate HasNameAttribute(target: SaveTarget)
  {
    target.Namespace?
  }

  /** The file name `save_results` writes under results/. It is always a
      .csv file, and it is "results.csv" exactly when no run name is
      available or the run is itself named "results". */
  function ResultFilename(target: SaveTarget): (f: string)
    ensures |f| >= 4 && f[|f| - 4..] == ".csv"
    ensures f == "results.csv" <==> !HasNameAttribute(target) || target.name == "results"
  {
    if HasNameAttribute(target) then
      var f := target.name + ".csv";
      assert f[..|target.name|] == target.name;
      assert f == "results.csv" ==> |target.name| == 7 && target.name == "results.csv"[..7];
      f
    else "results.csv"
  }

  /** The results file of a run named `runName` as the script is written:
      `save_results(results, f'results/{runName}.csv')` hands over a plain
      string. */
  function SavedFileAsWritten(runName: string): (f: string)
    ensures f == "results.csv"
  {
    ResultFilename(PlainString("results/" + runName + ".csv"))
  }

  /** As written, every run writes results/results.csv, so a run named
      "dos_run" overwrites the results of a run named "probe_run". */
  lemma AsWrittenRunsOverwrite(runName: string, otherRun: string)
    ensures SavedFileAsWritten(runName) == SavedFileAsWritten(otherRun) == "results.csv"
    ensures SavedFileAsWritten("dos_run") != "dos_run.csv"
  {
  }

  /** The results file of a run named `runName` when the run's options are
      handed to `save_results`, as its `hasattr(options, 'name')` test
      expects. */
  function SavedFile(runName: string): string
  {
    ResultFilename(Namespace(runName))
  }

  /** With the options passed, each run writes <name>.csv, and two runs with
      different names never overwrite each other's results. */
  lemma {:induction false} SavedFilesDistinct(runName: string, otherRun: string)
    ensures SavedFile(runName) == runName + ".csv"
    ensures runName != otherRun ==> SavedFile(runName) != SavedFile(otherRun)
  {
    var f, g := SavedFile(runName), SavedFile(otherRun);
    if f == g {
      assert |runName| == |otherRun|;
      assert f[..|runName|] == runName;
      assert g[..|otherRun|] == otherRun;
    }
  }

  /** Why `format_result` raises. */
  datatype FormatError =
    | IndexError          // `result[0]` of an empty row
    | UnknownFormatCode   // a later cell is a string, which has no `0.4f` format

  /** `format_result(result)`: the first cell is kept as it is and every
      later cell, which must be a score, is rendered by `render`
      (the `f'{score:0.4f}'` formatting). */
  function FormatResult<S>(result: seq<Cell<S>>, render: S -> string): (r: Result<seq<Cell<S>>, FormatError>)
    ensures r == Err(IndexError) <==> |result| == 0
    ensures r.Ok? <==> |result| > 0 && forall k :: 1 <= k < |result| ==> result[k].Score?
    ensures r.Ok? ==>
      && |r.value| == |result|
      && r.value[0] == result[0]
      && forall k :: 1 <= k < |result| ==> r.value[k] == Text(render(result[k].score))
  {
    if |result| == 0 then Err(IndexError)
    else if exists k :: 1 <= k < |result| && !result[k].Score? then Err(UnknownFormatCode)
    else
      var scores := seq(|result| - 1, k requires 0 <= k < |result| - 1 => Text(render(result[k + 1].score)));
      Ok([result[0]] + scores)
  }

  /** Every row the panel produces can be formatted: the printed table has
      one row per classifier, headed by its name, with one text cell per
      score. */
  lemma PanelRowsFormat<S, E>(attack: Option<string>, run: seq<string> -> Result<seq<S>, E>, render: S -> string)
    ensures RunAll(attack, run, IdsConfigs).Ok? ==>
      forall k :: 0 <= k < |IdsConfigs| ==>
        var row := RunAll(attack, run, IdsConfigs).value[k];
        FormatResult(row, render).Ok?
        && |FormatResult(row, render).value| == |row|
        && FormatResult(row, render).value[0] == Name(IdsConfigs[k].0)
  {
    var r := RunAll(attack, run, IdsConfigs);
    if r.Ok? {
      forall k | 0 <= k < |IdsConfigs|
        ensures FormatResult(r.value[k], render).Ok?
        ensures |FormatResult(r.value[k], render).value| == |r.value[k]|
        ensures FormatResult(r.value[k], render).value[0] == Name(IdsConfigs[k].0)
      {
        TesterRowFormats(attack, run, IdsConfigs[k], render);
      }
    }
  }

  /** A row `tester` returns can be formatted and keeps its name. */
  lemma TesterRowFormats<S, E>(attack: Option<string>, run: seq<string> -> Result<seq<S>, E>,
                               configuration: (string, string), render: S -> string)
    ensures var row := Tester(attack, run, configuration);
      row.Ok? ==>
        FormatResult(row.value, render).Ok?
        && |FormatResult(row.value, render).value| == |row.value|
        && FormatResult(row.value, render).value[0] == Name(configuration.0)
  {
  }
}
