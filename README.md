# IDSGAN evaluation script: reassembly and panel dispatch

This project models the deterministic core of the WGAN evaluation script
`IDSGAN/test_wgan.py`. The script runs the generator on the non-functional
features of malicious NSL-KDD records. It then splices the generated columns
back between the untouched functional columns and scores a panel of seven
intrusion-detection classifiers on the result.

What is modelled:

- **Feature reassembly** (`reassemble`). numpy arrays are `NdArray.Array2<T>` values, rectangular, with the element type left generic: cells are only moved, never computed. Column slicing follows Python's clipped slice rules. `np.concatenate` along either axis fails with a `ValueError` when shapes disagree. The column layout of each attack type is written down once, as `Reassembly.Plan`.
  - DoS order: `ff[:6]`, `nff[:13]`, `ff[6:15]`, `nff[13:]`, `ff[15:]`.
  - Probe order: `ff[:6]`, `nff[:13]`, `ff[6:15]`, `ff[15:25]`, `ff[25:]`.
  - Adversarial rows are stacked above normal rows. An attack type other than `DoS` or `Probe` leaves the result unbound and fails.
- **Panel dispatch** (`get_tester` / `tester`). This covers the seven-entry model-file table, the error for an unknown classifier name, the command line with its optional `--attack` pair, and rows of the form `[name, *scores]`. `list(map(tester, IDS_CONFIGS))` is modelled as `Panel.RunAll`. Scoring a classifier is a function parameter `run` that returns either the scores or the error raised while scoring.
- **Results handling**: the file name `save_results` picks, and the shape of `format_result`. Rendering one score as text is a function parameter `render`.

The Dafny files are `wrappers.dfy` (Option/Result), `ndarray.dfy` (the numpy subset), `reassembly.dfy`, `panel.dfy` and `results.dfy`.

## Model

| member | source | states |
|---|---|---|
| `NdArray.Slice` | IDSGAN/test_wgan.py:55-59 | A Python slice `row[start:stop]` has the clipped slice length: the bounds are clipped to the row, and a stop before the start gives an empty slice. |
| `NdArray.ColumnSlice` | IDSGAN/test_wgan.py:55-59 | `a[:, start:stop]` keeps the row count. Cell (i, k) of the slice is cell (i, start + k) of `a`, and the width is the clipped slice length. |
| `NdArray.SliceCells` | IDSGAN/test_wgan.py:55-59 | A Python slice holds exactly the elements whose index lies in [start, stop), in order. No element is left out. |
| `NdArray.SliceSplit` | IDSGAN/test_wgan.py:71-73 | Adjacent slices join up: `s[start:mid] + s[mid:stop] == s[start:stop]`, for any length of `s`. |
| `NdArray.ConcatColumns` | IDSGAN/test_wgan.py:60 | `np.concatenate(..., axis=1)` succeeds iff there is at least one block and all blocks have the same row count. It fails with "need at least one array" iff the list is empty. The result width is the sum of the block widths, and row i is row i of each block in order. |
| `NdArray.ConcatRows` | IDSGAN/test_wgan.py:83 | `np.concatenate(..., axis=0)` succeeds iff there is at least one block and all widths agree. The result is rectangular with the common width and holds the blocks' rows one after another. |
| `NdArray.ConcatTwoRows` | IDSGAN/test_wgan.py:83 | Stacking two arrays succeeds iff their widths are equal. The result's rows are the top rows followed by the bottom rows. |
| `Reassembly.Plan` | IDSGAN/test_wgan.py:54-74 | Each layout has five blocks. The first reads the functional array and the second the non-functional array, so every row draws on both inputs. The blocks themselves are stated by `DoSRow` and `ProbeRow`. |
| `Reassembly.Traffic` | IDSGAN/test_wgan.py:55-60 | Splicing one functional/non-functional pair succeeds iff both have the same row count. The result is rectangular with that row count and the layout's width. Row i is the spliced row i of the two inputs, so row i depends on nothing else. |
| `Reassembly.Reassemble` | IDSGAN/test_wgan.py:53-84 | `reassemble` fails as unbound iff the type is neither "DoS" nor "Probe". It succeeds iff the type is known, each pair has equal row counts, and the adversarial and normal spliced widths agree. On success it returns the spliced adversarial rows in order, then the spliced normal rows in order. Both blocks use the same layout. |
| `Reassembly.SameSplitStacks` | IDSGAN/test_wgan.py:62-83 | When the adversarial and normal arrays have the same widths, stacking cannot fail. Success then depends only on a known attack type and matching row counts. |
| `Reassembly.LabelsFollowRows` | IDSGAN/test_wgan.py:46-47 | Data rows paired with `labels_mal + labels_nor` give the spliced adversarial rows paired with the malicious labels, followed by the spliced normal rows paired with the normal labels. |
| `Reassembly.DoSRow` | IDSGAN/test_wgan.py:54-60 | The DoS row is `ff[:6] + nff[:13] + ff[6:15] + nff[13:] + ff[15:]`. |
| `Reassembly.ProbeRow` | IDSGAN/test_wgan.py:68-74 | The Probe row is `ff[:6] + nff[:13] + ff[6:15] + ff[15:25] + ff[25:]`. |
| `Reassembly.LayoutWidths` | IDSGAN/test_wgan.py:54-74 | For every input width, a DoS row is width(ff) + width(nff) wide and a Probe row is width(ff) + min(13, width(nff)) wide. |
| `Reassembly.DoSColumnsBijective` | IDSGAN/test_wgan.py:55-60 | The DoS source map (output column to input column) and destination map (input column to output column) are inverse. The layout is a bijection between output columns and input columns. |
| `Reassembly.DoSCell` | IDSGAN/test_wgan.py:55-60 | Output column i of a DoS row holds the input cell that the source map names, at every input width. With full NSL-KDD widths the boundaries are 6, 19, 28 and 15 + width(nff). |
| `Reassembly.DoSPlacement` | IDSGAN/test_wgan.py:55-60 | Every cell of a DoS row is the input cell the source map names. Every input cell appears in the row, at its destination column. |
| `Reassembly.DoSKeepsEveryCell` | IDSGAN/test_wgan.py:55-60 | A DoS row is a permutation of the functional and non-functional cells together: its multiset is the sum of the two inputs' multisets. |
| `Reassembly.ProbeCollapses` | IDSGAN/test_wgan.py:69-74 | The three trailing functional Probe blocks together are `ff[6:]`. The Probe row is `ff[:6] + nff[:13] + ff[6:]`, of width width(ff) + min(13, width(nff)). |
| `Reassembly.ProbeIgnoresGeneratedTail` | IDSGAN/test_wgan.py:70-72 | Two non-functional rows that agree on their first 13 columns give the same Probe row. Generated columns from 13 on are discarded. |
| `Reassembly.ProbeCell` | IDSGAN/test_wgan.py:69-74 | Output column i of a Probe row holds the input cell that the Probe source map names. |
| `Reassembly.ProbePlacement` | IDSGAN/test_wgan.py:69-74 | Every Probe output cell comes from the named input cell. Every functional cell and each of the first 13 generated cells appears exactly at its destination. No other generated cell appears. |
| `Panel.JoinPath` | IDSGAN/test_wgan.py:106 | POSIX `os.path.join` of two parts. An absolute second part replaces the first. Otherwise the parts are joined with one `/` when the first does not already end in one. |
| `Panel.ModelFilesAreRelative` | IDSGAN/test_wgan.py:88-106 | Every mapped model file name is relative, so its path is `models/` followed by the file name. |
| `Panel.Arguments` | IDSGAN/test_wgan.py:109-114 | The command line has 4 words, or 6 with an attack. Reading it back yields the configuration path, the model path, and exactly the attack passed in (none when none). |
| `Panel.Tester` | IDSGAN/test_wgan.py:98-118 | `tester` raises the no-mapping error iff the name is outside `filename_map`. Otherwise it runs the command line built from the configuration path, `models/<file>` and the attack. It raises exactly when that run raises, with the run's error. When the run succeeds it returns the name followed by one cell per score. |
| `Panel.RunAll` | IDSGAN/test_wgan.py:49 | Mapping the tester over a configuration list succeeds iff the tester succeeds on every configuration, with one row per configuration in order, each the tester's row. Otherwise it fails with the error of the first configuration whose tester fails. |
| `Panel.MappedRunAll` | IDSGAN/test_wgan.py:49 | When every name has a model file, mapping the tester never raises the no-mapping error. It succeeds iff every run of a built command line succeeds, and row k then starts with the k-th name. |
| `Panel.PanelNamesAreMapped` | IDSGAN/test_wgan.py:88-96 | The key set of `filename_map` is exactly the set of names in `IDS_CONFIGS`. |
| `Panel.PanelAlwaysMapped` | IDSGAN/test_wgan.py:12-20 | Every name in `IDS_CONFIGS` has a model file, so running the tester over the panel never raises the no-mapping error. It fails only when running a classifier's command line fails. Otherwise it yields seven rows, and row k starts with the k-th classifier's name. |
| `Results.ResultFilename` | IDSGAN/test_wgan.py:197-201 | The results file name always ends in `.csv`. It is `results.csv` iff the argument has no `name` attribute or the name is "results". |
| `Results.SavedFileAsWritten` | IDSGAN/test_wgan.py:50 | As called with `f'results/{options.name}.csv'`, `save_results` picks `results.csv` whatever the run is named. |
| `Results.AsWrittenRunsOverwrite` | IDSGAN/test_wgan.py:50 | As called, `save_results` receives a string, which has no `name` attribute. Every run therefore writes `results.csv`. |
| `Results.SavedFilesDistinct` | IDSGAN/test_wgan.py:197-199 | When the run's options are passed, the file is `<name>.csv`, and runs with different names never share a results file. |
| `Results.FormatResult` | IDSGAN/test_wgan.py:207-210 | `format_result` fails with an index error iff the row is empty. It succeeds iff every cell after the first is a score. On success it keeps the length, keeps the first cell unchanged, and renders each later cell from its score. |
| `Results.TesterRowFormats` | IDSGAN/test_wgan.py:207-210 | Every row `tester` returns can be formatted. The formatted row keeps its length and its first cell, the classifier's name. |
| `Results.PanelRowsFormat` | IDSGAN/test_wgan.py:182-183 | When the panel run succeeds, every row it produces can be formatted. Each formatted row keeps its length and starts with its classifier's name. |

## Left out

- Generator construction, loading and inference (`WGAN`, `model.load`, `model.generate`, lines 33-37) call a model class that is not part of this model. The generated array is an input of `Reassembly.Reassemble`.
- `load_test`, `preprocess`, `split_features` and `parse_arguments` (lines 23-31) come from modules that are not part of this model. Their outputs are inputs here.
- `parse_test_ids_arguments`, `test`, `get_model` and `get_binary_class_scores` (lines 116-117, 124-180) parse the command line, build, load and run classifiers from the `ids` package, and compute floating-point metrics. Together they are the parameter `run` of `Panel.Tester`, which returns either the scores or the error raised on the way (a parse error, `get_model`'s invalid-algorithm exception, a failing `model.load`). `Panel.Tester` passes that error on as `TestFailed`.
- `Panel.FlagValue` reads flag/value pairs back and is only a reference reading of the command line. The per-classifier test's argparse parser is not part of this model.
- Printing, `tabulate`, writing the generated samples and results as CSV, directory creation and `os.getcwd()` (lines 38-45, 182-185, 189-196, 203-204) are I/O. The `pd.DataFrame` column-count check in `save_results` is left out with them.
- `f'{score:0.4f}'` is floating-point rendering and is the parameter `render` of `Results.FormatResult`. Only the shape of the formatted row is modelled.
- Results.FormatResult: any later cell that is not a score is treated as raising, as a string would. A bool or int cell, which Python would format, is not distinguished from a score.
- Reassembly.Reassemble: torch tensors passed to `np.concatenate` are treated as numpy arrays, and dtype promotion is not modelled because cells are generic.
- Inputs are required to be rectangular. Every numpy array is rectangular, so this excludes no input the script can produce.

## Findings

| source | as written | input that shows it | evidently intended | confidence | as-written member | corrected member |
|---|---|---|---|---|---|---|
| IDSGAN/test_wgan.py:50 | `save_results` receives the string `f'results/{options.name}.csv'`. `hasattr(str, 'name')` is false, so every run writes `results/results.csv`. | `options.name = "dos_run"` writes `results/results.csv`, and a later run named `probe_run` overwrites it. | Pass the options namespace, which `hasattr(options, 'name')` expects, so the run writes `results/dos_run.csv`. | medium (not executed) | `Results.AsWrittenRunsOverwrite` | `Results.SavedFilesDistinct` |
