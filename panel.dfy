/**
 * The classifier panel dispatch of the evaluation script (`get_tester` and
 * its inner `tester` in IDSGAN/test_wgan.py): each panel entry's name is
 * looked up in a fixed table of model files, a command line for the
 * per-classifier test is built, and the scores it returns are prefixed
 * with the classifier's name.
 */
module Panel {
  import opened Wrappers

  /** IDS_CONFIGS: the panel of classifiers, each with its configuration file. */
  const IdsConfigs: seq<(string, string)> := [
    ("decision_tree", "configs/decision_tree.yaml"),
    ("k_nearest_neighbors", "configs/k_nearest_neighbors.yaml"),
    ("logistic_regression", "configs/logistic_regression.yaml"),
    ("multi_layer_perceptron", "configs/multi_layer_perceptron.yaml"),
    ("naive_bayes", "configs/naive_bayes.yaml"),
    ("random_forest", "configs/random_forest.yaml"),
    ("support_vector_machine", "configs/support_vector_machine.yaml")
  ]

  /** `filename_map`: classifier name to the saved model under models/. */
  const FilenameMap: map<string, string> := map[
    "decision_tree" := "dt.joblib",
    "k_nearest_neighbors" := "knn.joblib",
    "logistic_regression" := "lr.joblib",
    "multi_layer_perceptron" := "mlp.joblib",
    "naive_bayes" := "nb.joblib",
    "random_forest" := "rf.joblib",
    "support_vector_machine" := "svm.joblib"
  ]

  /** A cell of a result row: the classifier's name, a score, or a score
      rendered as text by `format_result`. */
  datatype Cell<S> = Name(name: string) | Score(score: S) | Text(text: string)

  /** Why `tester` raises: the ValueError for a name outside `filename_map`,
      or an error `cause` raised while parsing the command line, building the
      classifier (`get_model`), loading it (`model.load`) or scoring it. */
  datatype TesterError<E> = NoModelFileMapping(ids: string) | TestFailed(cause: E)

  /** POSIX `os.path.join(directory, file)` for two components. */
  function JoinPath(directory: string, file: string): (r: string)
    ensures |file| > 0 && file[0] == '/' ==> r == file
    ensures (|file| == 0 || file[0] != '/') && |directory| > 0 && directory[|directory| - 1] != '/' ==>
      r == directory + "/" + file
    ensures (|file| == 0 || file[0] != '/') && (|directory| == 0 || directory[|directory| - 1] == '/') ==>
      r == directory + file
  {
    if |file| > 0 && file[0] == '/' then file
    else if |directory| == 0 || directory[|directory| - 1] == '/' then directory + file
    else directory + "/" + file
  }

  /** Every mapped model file is a relative name, so it lands under models/. */
  lemma ModelFilesAreRelative()
    ensures forall name :: name in FilenameMap ==>
      |FilenameMap[name]| > 0 && FilenameMap[name][0] != '/'
      && JoinPath("models", FilenameMap[name]) == "models/" + FilenameMap[name]
  {
    forall name | name in FilenameMap
      ensures |FilenameMap[name]| > 0 && FilenameMap[name][0] != '/'
    {
      var f := FilenameMap[name];
      assert f[0] in "dklmnrs";
    }
    assert "models"[5] == 's';
  }

  /** Reads a flag's value back out of a command line of flag/value pairs. */
  function FlagValue(args: seq<string>, flag: string): Option<string>
    decreases |args|
  {
    if |args| < 2 then None
    else if args[0] == flag then Some(args[1])
    else FlagValue(args[2..], flag)
  }

  /** The command line handed to the per-classifier test's argument parser;
      the `--attack` pair is present only when an attack is given. Reading it
      back gives the configuration file, the model path and exactly the
      attack that went in (none when none was given); the line holds four
      words, six with an attack. */
  function Arguments(configPath: string, modelPath: string, attack: Option<string>): (args: seq<string>)
    ensures |args| == if attack.Some? then 6 else 4
    ensures FlagValue(args, "--config") == Some(configPath)
    ensures FlagValue(args, "--save_model") == Some(modelPath)
    ensures FlagValue(args, "--attack") == attack
  {
    var args := ["--config", configPath, "--save_model", modelPath]
      + (if attack.Some? then ["--attack", attack.value] else []);
    assert "--config"[2] != "--attack"[2] && "--config"[2] != "--save_model"[2];
    assert "--save_model"[2] != "--attack"[2];
    var tail := args[2..][2..];
    assert tail == if attack.Some? then ["--attack", attack.value] else [];
    assert FlagValue(args, "--attack") == FlagValue(args[2..], "--attack") == FlagValue(tail, "--attack");
    assert attack.Some? ==> tail[0] == "--attack";
    args
  }

  /** The command line `tester` builds for a mapped configuration. */
  function CommandLine(attack: Option<string>, configuration: (string, string)): seq<string>
    requires configuration.0 in FilenameMap
  {
    Arguments(configuration.1, "models/" + FilenameMap[configuration.0], attack)
  }

  /** `tester(configuration)`: `run` stands for parsing the command line and
      scoring the classifier on the reassembled data (not part of this
      model); any error it raises aborts the tester. */
  function Tester<S, E>(attack: Option<string>, run: seq<string> -> Result<seq<S>, E>, configuration: (string, string))
    : (r: Result<seq<Cell<S>>, TesterError<E>>)
    ensures r == Err(NoModelFileMapping(configuration.0)) <==> configuration.0 !in FilenameMap
    ensures configuration.0 in FilenameMap ==>
      var outcome := run(CommandLine(attack, configuration));
      && (r.Ok? <==> outcome.Ok?)
      && (outcome.Err? ==> r == Err(TestFailed(outcome.error)))
      && (outcome.Ok? ==>
            && |r.value| == 1 + |outcome.value|
            && r.value[0] == Name(configuration.0)
            && forall k :: 0 <= k < |outcome.value| ==> r.value[k + 1] == Score(outcome.value[k]))
  {
    var (name, configPath) := configuration;
    if name !in FilenameMap then Err(NoModelFileMapping(name))
    else
      var modelPath := JoinPath("models", FilenameMap[name]);
      ModelFilesAreRelative();
      match run(Arguments(configPath, modelPath, attack))
      case Err(cause) => Err(TestFailed(cause))
      case Ok(scores) => Ok([Name(name)] + seq(|scores|, k requires 0 <= k < |scores| => Score(scores[k])))
  }

  /** `list(map(tester, configurations))`: the rows in panel order; the
      first configuration whose tester raises aborts the whole run with
      that error. */
  function RunAll<S, E>(attack: Option<string>, run: seq<string> -> Result<seq<S>, E>, configurations: seq<(string, string)>)
    : (r: Result<seq<seq<Cell<S>>>, TesterError<E>>)
    ensures r.Ok? <==> forall k :: 0 <= k < |configurations| ==> Tester(attack, run, configurations[k]).Ok?
    ensures r.Ok? ==>
      && |r.value| == |configurations|
      && forall k :: 0 <= k < |configurations| ==> Tester(attack, run, configurations[k]) == Ok(r.value[k])
    ensures r.Err? ==>
      exists k :: 0 <= k < |configurations|
        && Tester(attack, run, configurations[k]) == Err(r.error)
        && forall j :: 0 <= j < k ==> Tester(attack, run, configurations[j]).Ok?
  {
    if configurations == [] then Ok([])
    else
      match Tester(attack, run, configurations[0])
      case Err(e) => Err(e)
      case Ok(row) =>
        match RunAll(attack, run, configurations[1..])
        case Err(e) =>
          ghost var k :| 0 <= k < |configurations[1..]|
            && Tester(attack, run, configurations[1..][k]) == Err(e)
            && forall j :: 0 <= j < k ==> Tester(attack, run, configurations[1..][j]).Ok?;
          assert configurations[k + 1] == configurations[1..][k];
          Err(e)
        case Ok(rows) => Ok([row] + rows)
  }

  /** The panel's names are exactly the names `filename_map` knows. */
  lemma PanelNamesAreMapped()
    ensures FilenameMap.Keys == set k | 0 <= k < |IdsConfigs| :: IdsConfigs[k].0
  {
    var names := set k | 0 <= k < |IdsConfigs| :: IdsConfigs[k].0;
    forall name | name in FilenameMap ensures name in names {
      if name == "decision_tree" { assert IdsConfigs[0].0 == name; }
      else if name == "k_nearest_neighbors" { assert IdsConfigs[1].0 == name; }
      else if name == "logistic_regression" { assert IdsConfigs[2].0 == name; }
      else if name == "multi_layer_perceptron" { assert IdsConfigs[3].0 == name; }
      else if name == "naive_bayes" { assert IdsConfigs[4].0 == name; }
      else if name == "random_forest" { assert IdsConfigs[5].0 == name; }
      else { assert IdsConfigs[6].0 == name; }
    }
  }

  /** Over configurations whose names all have model files, mapping the
      tester never raises the no-mapping error: it fails only when scoring
      some classifier fails, and otherwise row k is headed by the k-th name. */
  lemma MappedRunAll<S, E>(attack: Option<string>, run: seq<string> -> Result<seq<S>, E>,
                           configurations: seq<(string, string)>)
    requires forall k :: 0 <= k < |configurations| ==> configurations[k].0 in FilenameMap
    ensures RunAll(attack, run, configurations).Err? ==> RunAll(attack, run, configurations).error.TestFailed?
    ensures RunAll(attack, run, configurations).Ok? <==>
      forall k :: 0 <= k < |configurations| ==> run(CommandLine(attack, configurations[k])).Ok?
    ensures RunAll(attack, run, configurations).Ok? ==>
      forall k :: 0 <= k < |configurations| ==>
        |RunAll(attack, run, configurations).value[k]| > 0
        && RunAll(attack, run, configurations).value[k][0] == Name(configurations[k].0)
  {
    var r := RunAll(attack, run, configurations);
    if r.Err? {
      var k :| 0 <= k < |configurations| && Tester(attack, run, configurations[k]) == Err(r.error);
    }
  }

  /** Running the tester over IDS_CONFIGS never raises the no-mapping
      error: it fails only when scoring some classifier fails, and otherwise
      yields seven rows, row k headed by the k-th classifier's name. */
  lemma PanelAlwaysMapped<S, E>(attack: Option<string>, run: seq<string> -> Result<seq<S>, E>)
    ensures forall k :: 0 <= k < |IdsConfigs| ==> IdsConfigs[k].0 in FilenameMap
    ensures RunAll(attack, run, IdsConfigs).Err? ==> RunAll(attack, run, IdsConfigs).error.TestFailed?
    ensures RunAll(attack, run, IdsConfigs).Ok? <==>
      forall k :: 0 <= k < |IdsConfigs| ==> run(CommandLine(attack, IdsConfigs[k])).Ok?
    ensures RunAll(attack, run, IdsConfigs).Ok? ==>
      && |RunAll(attack, run, IdsConfigs).value| == |IdsConfigs| == 7
      && forall k :: 0 <= k < |IdsConfigs| ==>
           |RunAll(attack, run, IdsConfigs).value[k]| > 0
           && RunAll(attack, run, IdsConfigs).value[k][0] == Name(IdsConfigs[k].0)
  {
    PanelNamesAreMapped();
    assert forall k :: 0 <= k < |IdsConfigs| ==> IdsConfigs[k].0 in FilenameMap.Keys;
    MappedRunAll(attack, run, IdsConfigs);
  }
}
