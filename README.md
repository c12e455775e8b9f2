# Example tests of Optimum Habana, modelled in Dafny

This project models the part of `tests/test_examples.py` that decides which
example runs exist and what each of them does, up to the point where a
subprocess is started and after it has returned:

- **Model selection** (`ModelFilter`, `model_filter.dfy`). `_get_supported_models_for_script`
  flattens the ordered table "model type → (model name, Gaudi config) pairs"
  into the pairs whose model type can run a task. A type is kept when its
  configuration class is in the task mapping and the type is in the task's
  valid list. A type missing from `CONFIG_MAPPING` raises `KeyError`, but
  only when it has a pair to visit.
- **Test registration** (`TestPlan`, `test_plan.dfy`). `ExampleTestMeta.__new__`
  looks up the example's pairs and registers one test per admitted pair under
  `test_<example>_<model>_<single_card|multi_card>`, then records
  `EXAMPLE_NAME`. An example without a pair list raises `AttributeError`.
  The single-card `albert-xxlarge-v1` test is registered only when
  `RUN_ALBERT_XXL_1X` holds a `strtobool` true value. The flag is read once
  per pair, so an unreadable value raises `ValueError` as soon as there is a
  pair. The class attributes are a map that the method fills in a loop.
- **Preparing a run** (`TestRun`, `test_run.dfy`). This is the value part of
  the generated `test`:
  - the script glob must find exactly one script;
  - the baseline file is the model name with underscores for hyphens, read
    as a path whose suffix becomes `.json`, with pathlib's rules for parts
    and suffixes;
  - the task entry is read from that file;
  - learning rate, batch sizes, epochs and extra arguments are read with
    `.get` from the `distribution.<mode>` block and from the task's top level;
  - the command line is built from them.

  JSON values are a `Json` datatype. Missing keys and `.get` on something
  that is not a dictionary follow Python. So does f-string rendering of
  None, booleans, numbers and strings; lists and dictionaries are refused
  (see "## Left out").
- **Command line** (`CommandLine` and `Tokenizer`, `command_line.dfy` and
  `tokenizer.dfy`). `_create_command_line` builds the ordered list of
  `--flag value` strings imperatively. It then cuts every string with
  `re.split` on `(["'].+?["'])|\s` and drops the empty pieces. The splitter
  follows the regular-expression engine step by step: the quoted alternative
  is tried before whitespace, and the lazy match stops at the first closing
  quote of either kind that is not past a newline.
- **Regression check** (`Regression`, `regression.dfy`). `REGRESSION_METRICS`
  holds four metrics with a direction and a factor each. `assert_no_regression`
  walks them in table order. A metric is skipped when the baseline block does
  not hold it. A tracked metric that is missing from the results is a
  `KeyError`. Otherwise the result is compared with the factor times the
  baseline value, and the first failure ends the test.

`Outcomes` (`outcomes.dfy`) holds the `Result` and `Option` types and one
`Error` constructor per exception the code can raise.

Four behaviours of the code that are easy to misread:

- a quoted run inside an argument stays one token with its quotes kept
  (`Tokenizer.SplitQuotedRun`);
- a metric in the baseline block but absent from the results fails the test
  with `KeyError` (`Regression.MissingResultFails`);
- the regression baseline is the `distribution.<mode>` block of the task
  (`TestRun.PrepareRun`, `TestRun.ReadSettings`);
- two pairs of one example with the same model name give a single test, the
  last one written (`TestPlan.RegisteredLastWins`).

## Model

| member | source | states |
|---|---|---|
| ModelFilter.SupportedModels | tests/test_examples.py:51-76 | the filter itself, type by type; its properties are stated by SupportedModelsIsPairFilter, SupportedModelsMembership and SupportedModelsError |
| ModelFilter.FilterVisits | tests/test_examples.py:74-76 | the comprehension pair by pair, the reference SupportedModels is proved equal to |
| ModelFilter.IsValidModelType | tests/test_examples.py:67-72 | KeyError exactly when the type is not in CONFIG_MAPPING; otherwise true iff its config class is in the task mapping and the type is in the valid list |
| ModelFilter.Visits | tests/test_examples.py:74-76 | the (type, pair) visits of the nested comprehension are exactly the pairs listed under each type |
| ModelFilter.FilterVisitsAppend | tests/test_examples.py:74-76 | filtering a concatenation of visits gives the first error met, or the two kept lists in order |
| ModelFilter.FilterOneType | tests/test_examples.py:74-76 | the pairs of one type with pairs are all kept, all dropped, or raise the type's KeyError |
| ModelFilter.SupportedModelsIsPairFilter | tests/test_examples.py:51-76 | the type-by-type filter equals the pair-by-pair comprehension: same order, same first error |
| ModelFilter.SupportedModelsMembership | tests/test_examples.py:51-76 | a pair is in the result iff it is listed under a type whose config class is in the task mapping and which is in the valid list |
| ModelFilter.SupportedModelsError | tests/test_examples.py:67-76 | the filter raises iff some type with pairs is unknown, and reports the first such type in table order |
| TestPlan.Lower | tests/test_examples.py:117 | lowering keeps the length and lowers every character |
| TestPlan.StrToBool | tests/test_examples.py:117 | true iff the lowered value is one of y, yes, t, true, on, 1; false iff one of n, no, f, false, off, 0; ValueError on anything else |
| TestPlan.AlbertFlag | tests/test_examples.py:117 | an absent variable is false; a present one is what strtobool reads from it |
| TestPlan.TestName | tests/test_examples.py:119-121 | every generated attribute name starts with `test_`, so unittest collects it |
| TestPlan.Registered | tests/test_examples.py:115-121 | the attributes after visiting a prefix of the pairs; stated by RegisteredStep, RegisteredKeys, RegisteredKeepsOthers, RegisteredLastWins and ExclusionRule |
| TestPlan.ClassAttrs | tests/test_examples.py:110-123 | the outcome of `__new__`; stated by ClassAttrsOutcome, and NewTestClass is proved equal to it |
| TestPlan.NewTestClass | tests/test_examples.py:110-123 | the loop's attributes equal ClassAttrs: AttributeError for an unknown example, ValueError from the flag, else the admitted tests and EXAMPLE_NAME |
| TestPlan.RegisteredStep | tests/test_examples.py:115-121 | one more pair visited writes its test over the earlier ones exactly when it is admitted |
| TestPlan.RegisteredKeys | tests/test_examples.py:115-121 | a key is present after the loop iff it was before or is the test name of an admitted pair |
| TestPlan.RegisteredKeepsOthers | tests/test_examples.py:115-121 | attributes that are no admitted test name keep their values |
| TestPlan.TestNameInjective | tests/test_examples.py:120 | within one example and mode, different model names give different test names |
| TestPlan.ModesNeverCollide | tests/test_examples.py:120 | a single-card test name never equals a multi-card one |
| TestPlan.RegisteredLastWins | tests/test_examples.py:119-121 | with repeated model names, the test of the last admitted pair is the one kept |
| TestPlan.ExclusionRule | tests/test_examples.py:116-121 | the ALBERT XXL model gets a test iff the run is multi-card or the flag is true; every other model gets one |
| TestPlan.ClassAttrsOutcome | tests/test_examples.py:110-123 | an unknown example raises before anything else; otherwise it raises iff there is a pair and the flag is unreadable; success records EXAMPLE_NAME |
| TestPlan.StrToBoolIgnoresCase | tests/test_examples.py:117 | strtobool gives the same answer for a value and its lowered form |
| TestPlan.LowerIdempotent | tests/test_examples.py:117 | lowering twice is lowering once |
| TestRun.Lookup | tests/test_examples.py:166-172 | `.get` returns the stored value for a present key and the default otherwise |
| TestRun.Index | tests/test_examples.py:154 | `json[key]` succeeds iff the value is a dictionary holding the key, and returns its value; TypeError on a non-dictionary, KeyError for a missing key |
| TestRun.Render | tests/test_examples.py:241-251 | f-string rendering: None is `None`, booleans `True`/`False`, numbers their text, strings themselves; lists and dictionaries are refused |
| TestRun.Chars | tests/test_examples.py:258 | extending the list with a string adds its characters, one string each |
| TestRun.Strings | tests/test_examples.py:258 | a JSON list is a list of strings iff every item is a string, item by item |
| TestRun.ExtraArgumentsOf | tests/test_examples.py:170-172 | a null value means no extra arguments, a list of strings exactly those strings, a string its characters; a list with a non-string item, a number, a boolean or a dictionary is a TypeError |
| TestRun.Glob | tests/test_examples.py:141-142 | the matches are exactly the entries one folder down named `<example>.py` |
| TestRun.SelectScript | tests/test_examples.py:141-148 | RuntimeError for no match and for several matches; otherwise the one matching script |
| TestRun.Underscored | tests/test_examples.py:152 | every `-` becomes `_`, every other character stays, the length is kept |
| TestRun.Components | tests/test_examples.py:152 | the pieces between slashes hold no slash, and a name without a slash is one piece |
| TestRun.ComponentsRoundTrip | tests/test_examples.py:152 | joining the pieces with `/` gives the name back |
| TestRun.JoinAfterEmpty | tests/test_examples.py:152 | an empty first piece stands for a leading `/` |
| TestRun.JoinExtendFirst | tests/test_examples.py:152 | text in front of the first piece is text in front of the joined path |
| TestRun.Parts | tests/test_examples.py:152 | pathlib keeps exactly the pieces that are neither empty nor `.` |
| TestRun.PartsAppend | tests/test_examples.py:152 | the kept parts keep their order and multiplicity |
| TestRun.PartsEmpty | tests/test_examples.py:152 | no part is left iff every piece is empty or `.` |
| TestRun.WithSuffix | tests/test_examples.py:152 | the result ends with the suffix after a prefix of the name, and a name without a dot just gets the suffix appended |
| TestRun.Join | tests/test_examples.py:152 | the joined path ends with its last part |
| TestRun.JsonPath | tests/test_examples.py:152 | ValueError iff no piece is left after dropping empty pieces and `.`; otherwise a path ending in `.json` |
| TestRun.BaselineFileName | tests/test_examples.py:152 | a ValueError names the underscored model name; a file name always ends in `.json` |
| TestRun.LastDot | tests/test_examples.py:152 | the position of a dot with no dot after it, or no dot at all |
| TestRun.OnePartJsonPath | tests/test_examples.py:152 | a name of one part only has its suffix changed |
| TestRun.PlainBaselineFileName | tests/test_examples.py:152 | a model name without `/` or `.` names `<name with _ for ->.json` |
| TestRun.UnderscoredPlain | tests/test_examples.py:152 | replacing hyphens adds no slash and no dot |
| TestRun.NoDotWithSuffix | tests/test_examples.py:152 | with_suffix appends the suffix to a name without a dot |
| TestRun.BaselineFileNameHasNoHyphen | tests/test_examples.py:152 | no baseline file name holds a hyphen |
| TestRun.ComponentsHyphenFree | tests/test_examples.py:152 | splitting a hyphen-free name gives hyphen-free pieces |
| TestRun.WithSuffixHyphenFree | tests/test_examples.py:152 | with_suffix(".json") adds no hyphen |
| TestRun.JoinHyphenFree | tests/test_examples.py:152 | joining hyphen-free parts gives a hyphen-free path |
| TestRun.DottedNameLosesSuffix | tests/test_examples.py:152 | a dot inside a model name starts a suffix that `.json` replaces, so the text after it is lost |
| TestRun.DottedNamePlain | tests/test_examples.py:152 | a stem and tail without `/`, `.` or `-` joined by a dot hold no slash or hyphen |
| TestRun.DottedWithSuffix | tests/test_examples.py:152 | with_suffix replaces the text after the last dot |
| TestRun.LastDotNoDotTail | tests/test_examples.py:152 | text without a dot appended after a name leaves its last dot in place |
| TestRun.UnderscoredFixed | tests/test_examples.py:152 | a name without hyphens is unchanged |
| TestRun.ReadSettings | tests/test_examples.py:156-172 | a successful read implies the task has a dictionary block for the run's mode, and that block is the regression baseline |
| TestRun.SettingsWithExtraArguments | tests/test_examples.py:166-172 | a list of strings under `extra_arguments` in the mode's block becomes the extra arguments, string for string |
| TestRun.SettingsSources | tests/test_examples.py:156-172 | learning rate and train batch size come from `distribution.<mode>`, eval batch size and epochs from the task's top level, and a missing extra_arguments means none |
| TestRun.MissingModeBlock | tests/test_examples.py:166 | a task without a block for the run's mode fails on the learning-rate read |
| TestRun.OtherModeIgnored | tests/test_examples.py:156-172 | the other mode's block plays no part in a run |
| TestRun.TopLevelNotRead | tests/test_examples.py:166-172 | top-level values under the block's keys are never read |
| TestRun.PrepareRun | tests/test_examples.py:138-173 | succeeds iff the script, file name, baseline file, task entry and settings all resolve, and otherwise fails with the error of the first step that does not; the tokens are then the Layout of the read settings and the regression baseline is the mode's block (line 185) |
| Tokenizer.CloseFrom | tests/test_examples.py:260 | the lazy quoted match closes at the first quote with no newline before it, or fails when there is none |
| Tokenizer.QuotedEnd | tests/test_examples.py:260 | a quoted match spans two quotes around at least one character and no newline |
| Tokenizer.Scan | tests/test_examples.py:260-261 | every token is non-empty and is either a quoted run or holds no whitespace |
| Tokenizer.Split | tests/test_examples.py:260-261 | the pieces of one string are non-empty, each a quoted run or free of whitespace |
| Tokenizer.SplitAll | tests/test_examples.py:261 | the same of all the pieces of the command list |
| Tokenizer.SplitAllNonEmpty | tests/test_examples.py:261 | the comprehension never yields an empty token |
| Tokenizer.SplitAllAppend | tests/test_examples.py:261 | the tokens of a list are the tokens of its parts, in order |
| Tokenizer.ScanAfterSpace | tests/test_examples.py:260-261 | a whitespace character after quote-free text separates what comes before from what comes after |
| Tokenizer.SplitAfterSpace | tests/test_examples.py:260-261 | a quote-free text, a space and any text split independently |
| Tokenizer.ScanWord | tests/test_examples.py:260-261 | a text with no quote or whitespace joins the current piece |
| Tokenizer.SplitWord | tests/test_examples.py:260-261 | a word is one token, itself |
| Tokenizer.ScanQuoteFreeKeepsText | tests/test_examples.py:260-261 | without quotes the tokens hold exactly the non-whitespace characters, in order |
| Tokenizer.ConcatAppend | tests/test_examples.py:261 | concatenation distributes over appending token lists |
| Tokenizer.SplitQuoteFreeKeepsText | tests/test_examples.py:260-261 | joining the tokens of a quote-free string gives it back without whitespace |
| Tokenizer.CloseFromPlainInner | tests/test_examples.py:260 | with no inner quote or newline, the match closes at the final quote |
| Tokenizer.SplitQuoted | tests/test_examples.py:260-261 | a quoted text is one token, quotes kept, whatever whitespace it holds |
| Tokenizer.CloseFromPlainRun | tests/test_examples.py:260 | text after a plain quoted run does not move where its lazy match closes |
| Tokenizer.ScanQuotedRun | tests/test_examples.py:260-261 | a plain quoted run after quote-free text is one token with its quotes, between the tokens of the text before and after |
| Tokenizer.SplitQuotedRun | tests/test_examples.py:260-261 | `--flag="a b" rest` gives `--flag=`, `"a b"` with its quotes, then the tokens of the rest |
| Tokenizer.SplitFlagValue | tests/test_examples.py:258-261 | `--flag value` and `--flag "a b"` give the flag, then the value as one token |
| CommandLine.SplitOption | tests/test_examples.py:241-254 | a flag word, a space and a value give the flag, then the value's tokens |
| CommandLine.SplitLeadingSpace | tests/test_examples.py:231-251 | a leading space gives no token |
| CommandLine.Launcher | tests/test_examples.py:233-237 | the launcher tokens; CreateCommandLine and LayoutOfWords state them |
| CommandLine.TaskTokens | tests/test_examples.py:231 | the dataset option's tokens; ScriptAndTaskOfWords states them for a word task |
| CommandLine.Layout | tests/test_examples.py:231-261 | the command token by token; CreateCommandLine is proved to yield it and LayoutOfWords spells it out |
| CommandLine.CreateCommandLine | tests/test_examples.py:217-261 | the tokens are the Layout: launcher, script, flags each followed by their value's tokens in list order, extras last; none is empty |
| CommandLine.LauncherTokens | tests/test_examples.py:233-237 | the launcher is `python3`, plus in multi-card mode the spawner and `--world_size 8 --use_mpi` |
| CommandLine.ScriptAndTaskTokens | tests/test_examples.py:231-245 | the script, model and config strings give their flags and values; the task option gives nothing when the task is false |
| CommandLine.TrainingTokens | tests/test_examples.py:246-254 | the output, learning-rate, batch, epoch and Habana strings give their flags and values in order |
| CommandLine.AssembleTokens | tests/test_examples.py:239-261 | the tokens of the whole list are those of its groups, in order |
| CommandLine.HeadTokens | tests/test_examples.py:233-237 | the launcher strings split into the launcher tokens |
| CommandLine.ScriptGroupTokens | tests/test_examples.py:240-242 | the script string is split, then each flag precedes its value's tokens |
| CommandLine.TaskGroupTokens | tests/test_examples.py:231-245 | the task option gives the dataset flag and task, or nothing when the task is false |
| CommandLine.OutputGroupTokens | tests/test_examples.py:246-248 | the output and learning-rate strings give their flags and values |
| CommandLine.BatchGroupTokens | tests/test_examples.py:249-251 | the batch and epoch strings give their flags and values; the leading space gives nothing |
| CommandLine.HabanaGroupTokens | tests/test_examples.py:252-254 | the Habana strings give four tokens |
| CommandLine.LayoutOfWords | tests/test_examples.py:217-261 | when every value is a single word, the command is the flags and values themselves, one token each |
| CommandLine.ScriptAndTaskOfWords | tests/test_examples.py:240-245 | with word values, the script, model, config and task strings are their flags and values |
| CommandLine.OutputAndBatchOfWords | tests/test_examples.py:246-251 | with word values, the output, learning-rate, batch and epoch strings are their flags and values |
| Regression.Meets | tests/test_examples.py:287 | one comparison; its directions and factors for each row of REGRESSION_METRICS are stated by RegressionDirections |
| Regression.Judge | tests/test_examples.py:284-287 | the rows of REGRESSION_METRICS in order; stated by JudgePassesIffAllMet and JudgeStopsAtFirstFailure |
| Regression.Check | tests/test_examples.py:284-287 | skipped iff the baseline lacks the metric or the result meets it; KeyError iff the baseline has it and the results do not; otherwise a failure naming the result and the bound |
| Regression.AssertNoRegression | tests/test_examples.py:276-287 | the loop's verdict is that of the first table row that does not pass |
| Regression.JudgePassesIffAllMet | tests/test_examples.py:284-287 | the test passes iff every tracked metric of the baseline has a result within its bound |
| Regression.JudgeStopsAtFirstFailure | tests/test_examples.py:284-287 | a failing verdict is the check of one row, and every row before it passed |
| Regression.RegressionDirections | tests/test_examples.py:210-215 | eval_f1 and eval_rougeLsum must be at least 0.99 of the baseline; perplexity at most 1.01 of it; train_runtime at most 1.05 of it |
| Regression.MissingResultFails | tests/test_examples.py:285-287 | a tracked metric in the baseline but not in the results fails the test |
| Regression.UntrackedIgnored | tests/test_examples.py:284-285 | keys the table does not track change nothing |
| Regression.BetterResultsStillPass | tests/test_examples.py:284-287 | a passing run still passes when every tracked result moves in its metric's good direction |
| Regression.EvalF1Example | tests/test_examples.py:284-287 | baseline eval_f1 0.80: 0.79 fails against 0.792, 0.80 passes |
| Regression.TrainRuntimeExample | tests/test_examples.py:284-287 | baseline train_runtime 100: 104 passes, 106 fails against 105 |

## Left out

- Starting the example and installing requirements (lines 150, 175-179 and 263-274): subprocesses and pip are outside the model. A run's return code and its `all_results.json` would be inputs; `Regression` takes the results as a map.
- File system: the examples directory is a list of entries, and the baseline files are a map from path to parsed JSON. Glob order, `resolve()`, `TemporaryDirectory` and JSON parsing are not modelled.
- `_SCRIPT_TO_MODEL_MAPPING` (lines 79-100) is built from `transformers` tables and `tests/utils.py`, which are not part of this model. `ModelFilter` and `TestPlan` take those tables as parameters.
- Floating point: numbers are reals with the text Python prints for them. `Render` uses that text and does not model float formatting.
- TestRun.Render: a list or dictionary used as a hyperparameter is refused; Python would render its repr.
- TestRun.ExtraArgumentsOf: a dictionary under `extra_arguments` is refused; Python would extend the list with its keys.
- Regression: results and baseline values are maps from metric name to real. Non-numeric values, and comparisons that raise `TypeError`, are not modelled.
- TestPlan.Lower lowers ASCII letters only. No word `strtobool` accepts holds a letter that a non-ASCII capital lowers to, so `StrToBool` decides every input as Python does. The text carried by `InvalidTruthValue` differs from Python's for a value with a non-ASCII capital such as `É`.
- TestPlan.NewTestClass takes the example name as a string. With `example_name=None` the source raises `UnboundLocalError` at line 115; that path is not modelled.
- The `EXAMPLE_NAME is None` check of the test (lines 139-140) is not modelled, and neither is a `TASK_NAME` of None. The test always passes the task as a present string.
- pathlib: leading double slashes and drive letters are not modelled. A leading `/` makes the path absolute, and the baseline directory is then dropped.
- unittest plumbing is not modelled: `@slow`, `_create_test`'s closure, `super().__new__` and the tester subclasses from line 290 on.
- The error messages of the exceptions are not modelled, only which exception is raised and its key.
