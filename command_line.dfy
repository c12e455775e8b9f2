/**
 * `_create_command_line`: the command that runs one example, built as an
 * ordered list of "--flag value" strings (with the distributed spawner in
 * front in multi-card mode) and then cut into tokens by the Tokenizer.
 *
 * Hyperparameter values arrive already rendered as text, the way Python's
 * f-strings render them.
 */
module CommandLine {
  import opened Outcomes
  import opened Tokenizer

  /** The example script `<exampleDir>/<folder>/<exampleName>.py`, the one match of the script glob. */
  datatype Script = Script(exampleDir: string, folder: string, exampleName: string) {
    function Path(): string { exampleDir + "/" + folder + "/" + exampleName + ".py" }

    /** `script.parent.parent / 'gaudi_spawn.py'`: the spawner sits in the examples directory. */
    function Spawner(): string { exampleDir + "/gaudi_spawn.py" }
  }

  /** Python's `if task`: None and the empty string are false. */
  predicate Truthy(task: Option<string>) { task.Some? && task.value != [] }

  /** The tokens of the dataset option: nothing when the task is false. */
  function TaskTokens(datasetParameter: string, task: Option<string>): seq<string>
  {
    if Truthy(task) then Split("--" + datasetParameter + " " + task.value) else []
  }

  /** The extra arguments appended to the command: none when they are None. */
  function ExtraArguments(extraArguments: Option<seq<string>>): seq<string>
  {
    if extraArguments.Some? then extraArguments.value else []
  }

  /** `python3`, then in multi-card mode the spawner with `--world_size 8 --use_mpi`. */
  function Launcher(multiCard: bool, script: Script): seq<string>
  {
    ["python3"] + (if multiCard then Split(script.Spawner()) + ["--world_size", "8", "--use_mpi"] else [])
  }

  /**
   * The command, token by token: the launcher, the script, then each flag
   * followed by the tokens of its value, the fixed flags ending with
   * `--throughput_warmup_steps 2`, and the extra arguments' tokens last. The
   * brackets group the tokens of every three strings of the command list.
   */
  function Layout(multiCard: bool, script: Script, modelName: string, gaudiConfig: string, outputDir: string,
                  lr: string, trainBatchSize: string, evalBatchSize: string, numEpochs: string,
                  datasetParameter: string, task: Option<string>, extraArguments: Option<seq<string>>): seq<string>
  {
    Launcher(multiCard, script)
    + (Split(script.Path()) + ["--model_name_or_path"] + Split(modelName) + ["--gaudi_config_name"] + Split(gaudiConfig))
    + (TaskTokens(datasetParameter, task) + ["--do_train", "--do_eval"])
    + (["--output_dir"] + Split(outputDir) + ["--overwrite_output_dir", "--learning_rate"] + Split(lr))
    + (["--per_device_train_batch_size"] + Split(trainBatchSize) + ["--per_device_eval_batch_size"] + Split(evalBatchSize)
       + ["--num_train_epochs"] + Split(numEpochs))
    + ["--use_habana", "--use_lazy_mode", "--throughput_warmup_steps", "2"]
    + SplitAll(ExtraArguments(extraArguments))
  }

  /** A flag word, a space and any value: the flag, then the value's own tokens. */
  lemma SplitOption(flag: string, value: string)
    requires Word(flag)
    ensures Split(flag + " " + value) == [flag] + Split(value)
  {
    SplitWord(flag);
    SplitAfterSpace(flag, ' ', value);
  }

  /** A leading space contributes no token. */
  lemma SplitLeadingSpace(rest: string)
    ensures Split(" " + rest) == Split(rest)
  {
    SplitAfterSpace([], ' ', rest);
    assert [] + [' '] + rest == " " + rest;
    assert Split([]) == [];
  }

  lemma SplitAllCons(x: string, rest: seq<string>)
    ensures SplitAll([x] + rest) == Split(x) + SplitAll(rest)
  {
    assert ([x] + rest)[0] == x;
    assert ([x] + rest)[1..] == rest;
  }

  lemma SplitAllThree(a: string, b: string, c: string)
    ensures SplitAll([a, b, c]) == Split(a) + Split(b) + Split(c)
  {
    assert [a, b, c] == [a] + [b, c];
    assert [b, c] == [b] + [c];
    assert [c] == [c] + [];
    SplitAllCons(c, []);
    SplitAllCons(b, [c]);
    SplitAllCons(a, [b, c]);
  }

  /**
   * `_create_command_line`: the command list, cut into tokens. Every token is
   * non-empty and they come in the order of `Layout`.
   */
  method CreateCommandLine(multiCard: bool, script: Script, modelName: string, gaudiConfig: string, outputDir: string,
                           lr: string, trainBatchSize: string, evalBatchSize: string, numEpochs: string,
                           datasetParameter: string, task: Option<string>, extraArguments: Option<seq<string>>)
    returns (tokens: seq<string>)
    ensures tokens == Layout(multiCard, script, modelName, gaudiConfig, outputDir, lr, trainBatchSize, evalBatchSize,
                             numEpochs, datasetParameter, task, extraArguments)
    ensures forall t :: t in tokens ==> t != []
  {
    var taskOption := if Truthy(task) then "--" + datasetParameter + " " + task.value else " ";

    var cmdLine := ["python3"];
    if multiCard {
      cmdLine := cmdLine + [script.Spawner()];
      cmdLine := cmdLine + ["--world_size" + " " + "8"];
      cmdLine := cmdLine + ["--use_mpi"];
    }
    var head := cmdLine;
    var scriptGroup := [script.Path(), "--model_name_or_path" + " " + modelName, "--gaudi_config_name" + " " + gaudiConfig];
    var taskGroup := [taskOption, "--do_train", "--do_eval"];
    var outputGroup := ["--output_dir" + " " + outputDir, "--overwrite_output_dir", "--learning_rate" + " " + lr];
    var batchGroup := ["--per_device_train_batch_size" + " " + trainBatchSize,
                       "--per_device_eval_batch_size" + " " + evalBatchSize,
                       " " + "--num_train_epochs" + " " + numEpochs];
    var habanaGroup := ["--use_habana", "--use_lazy_mode", "--throughput_warmup_steps" + " " + "2"];
    cmdLine := cmdLine + (scriptGroup + taskGroup + outputGroup + batchGroup + habanaGroup);
    var body := cmdLine;
    if extraArguments.Some? {
      cmdLine := cmdLine + extraArguments.value;
    }

    tokens := SplitAll(cmdLine);

    SplitAllNonEmpty(cmdLine);
    LauncherTokens(multiCard, script.Spawner(), head);
    ScriptAndTaskTokens(script.Path(), modelName, gaudiConfig, datasetParameter, task, taskOption);
    TrainingTokens(outputDir, lr, trainBatchSize, evalBatchSize, numEpochs);
    if extraArguments.None? {
      AppendEmpty(body);
    }
    AssembleTokens(head, scriptGroup, taskGroup, outputGroup, batchGroup, habanaGroup, ExtraArguments(extraArguments));
  }

  /** The tokens of the launcher strings. */
  lemma LauncherTokens(multiCard: bool, spawner: string, head: seq<string>)
    requires head == if multiCard then ["python3"] + [spawner] + ["--world_size" + " " + "8"] + ["--use_mpi"] else ["python3"]
    ensures SplitAll(head) == ["python3"] + (if multiCard then Split(spawner) + ["--world_size", "8", "--use_mpi"] else [])
  {
    LauncherWords();
    HeadTokens(multiCard, spawner, head, "python3", "--world_size", "8", "--use_mpi");
  }

  /** The tokens of the script, model and task strings. */
  lemma ScriptAndTaskTokens(path: string, modelName: string, gaudiConfig: string, datasetParameter: string,
                            task: Option<string>, taskOption: string)
    requires taskOption == if Truthy(task) then "--" + datasetParameter + " " + task.value else " "
    ensures SplitAll([path, "--model_name_or_path" + " " + modelName, "--gaudi_config_name" + " " + gaudiConfig])
         == Split(path) + ["--model_name_or_path"] + Split(modelName) + ["--gaudi_config_name"] + Split(gaudiConfig)
    ensures SplitAll([taskOption, "--do_train", "--do_eval"]) == TaskTokens(datasetParameter, task) + ["--do_train", "--do_eval"]
  {
    TrainingFlagWords();
    ScriptGroupTokens(path, "--model_name_or_path", modelName, "--gaudi_config_name", gaudiConfig);
    TaskGroupTokens(datasetParameter, task, taskOption, "--do_train", "--do_eval");
  }

  /** The tokens of the output, learning-rate, batch, epoch and Habana strings. */
  lemma TrainingTokens(outputDir: string, lr: string, trainBatchSize: string, evalBatchSize: string, numEpochs: string)
    ensures SplitAll(["--output_dir" + " " + outputDir, "--overwrite_output_dir", "--learning_rate" + " " + lr])
         == ["--output_dir"] + Split(outputDir) + ["--overwrite_output_dir", "--learning_rate"] + Split(lr)
    ensures SplitAll(["--per_device_train_batch_size" + " " + trainBatchSize,
                      "--per_device_eval_batch_size" + " " + evalBatchSize,
                      " " + "--num_train_epochs" + " " + numEpochs])
         == ["--per_device_train_batch_size"] + Split(trainBatchSize) + ["--per_device_eval_batch_size"]
            + Split(evalBatchSize) + ["--num_train_epochs"] + Split(numEpochs)
    ensures SplitAll(["--use_habana", "--use_lazy_mode", "--throughput_warmup_steps" + " " + "2"])
         == ["--use_habana", "--use_lazy_mode", "--throughput_warmup_steps", "2"]
  {
    TrainingFlagWords();
    BatchFlagWords();
    HabanaWords();
    OutputGroupTokens("--output_dir", outputDir, "--overwrite_output_dir", "--learning_rate", lr);
    BatchGroupTokens("--per_device_train_batch_size", trainBatchSize, "--per_device_eval_batch_size", evalBatchSize,
                     "--num_train_epochs", numEpochs);
    HabanaGroupTokens("--use_habana", "--use_lazy_mode", "--throughput_warmup_steps", "2");
  }

  /** The tokens of the whole list are those of its groups, in order. */
  lemma AssembleTokens(head: seq<string>, g1: seq<string>, g2: seq<string>, g3: seq<string>, g4: seq<string>,
                       g5: seq<string>, extra: seq<string>)
    ensures SplitAll(head + (g1 + g2 + g3 + g4 + g5) + extra)
         == SplitAll(head) + SplitAll(g1) + SplitAll(g2) + SplitAll(g3) + SplitAll(g4) + SplitAll(g5) + SplitAll(extra)
  {
    AppendFive(head, g1, g2, g3, g4, g5);
    SplitAllFive(head, g1, g2, g3, g4, g5);
    SplitAllAppend(head + (g1 + g2 + g3 + g4 + g5), extra);
  }

  lemma AppendEmpty<T>(x: seq<T>)
    ensures x + [] == x
  {
  }

  lemma SplitAllFive(h: seq<string>, g1: seq<string>, g2: seq<string>, g3: seq<string>, g4: seq<string>, g5: seq<string>)
    ensures SplitAll(h + g1 + g2 + g3 + g4 + g5)
         == SplitAll(h) + SplitAll(g1) + SplitAll(g2) + SplitAll(g3) + SplitAll(g4) + SplitAll(g5)
  {
    SplitAllAppend(h + g1 + g2 + g3 + g4, g5);
    SplitAllAppend(h + g1 + g2 + g3, g4);
    SplitAllAppend(h + g1 + g2, g3);
    SplitAllAppend(h + g1, g2);
    SplitAllAppend(h, g1);
  }

  lemma AppendFive<T>(h: seq<T>, a: seq<T>, b: seq<T>, c: seq<T>, d: seq<T>, e: seq<T>)
    ensures h + (a + b + c + d + e) == h + a + b + c + d + e
  {
  }

  /** The characters the fixed flags are written with. */
  predicate FlagChar(c: char) { 'a' <= c <= 'z' || '0' <= c <= '9' || c == '-' || c == '_' }

  lemma FlagCharsWord(w: string)
    requires w != [] && forall j :: 0 <= j < |w| ==> FlagChar(w[j])
    ensures Word(w)
  {
  }

  /** The fixed words of the launcher. */
  lemma LauncherWords()
    ensures Word("python3") && Word("--world_size") && Word("8") && Word("--use_mpi")
  {
    FlagCharsWord("python3");
    FlagCharsWord("--world_size");
    FlagCharsWord("8");
    FlagCharsWord("--use_mpi");
  }

  /** The fixed flags of the script, model and training groups. */
  lemma TrainingFlagWords()
    ensures Word("--model_name_or_path") && Word("--gaudi_config_name") && Word("--do_train") && Word("--do_eval")
    ensures Word("--output_dir") && Word("--overwrite_output_dir") && Word("--learning_rate")
  {
    FlagCharsWord("--model_name_or_path");
    FlagCharsWord("--gaudi_config_name");
    FlagCharsWord("--do_train");
    FlagCharsWord("--do_eval");
    FlagCharsWord("--output_dir");
    FlagCharsWord("--overwrite_output_dir");
    FlagCharsWord("--learning_rate");
  }

  /** The fixed flags of the batch group. */
  lemma BatchFlagWords()
    ensures Word("--per_device_train_batch_size") && Word("--per_device_eval_batch_size") && Word("--num_train_epochs")
  {
    FlagCharsWord("--per_device_train_batch_size");
    FlagCharsWord("--per_device_eval_batch_size");
    FlagCharsWord("--num_train_epochs");
  }

  /** The fixed words of the Habana group. */
  lemma HabanaWords()
    ensures Word("--use_habana") && Word("--use_lazy_mode") && Word("--throughput_warmup_steps") && Word("2")
  {
    FlagCharsWord("--use_habana");
    FlagCharsWord("--use_lazy_mode");
    FlagCharsWord("--throughput_warmup_steps");
    FlagCharsWord("2");
  }

  /** The launcher strings split into the launcher tokens. */
  lemma HeadTokens(multiCard: bool, spawner: string, head: seq<string>, python: string, worldSize: string, eight: string, useMpi: string)
    requires Word(python) && Word(worldSize) && Word(eight) && Word(useMpi)
    requires head == if multiCard then [python] + [spawner] + [worldSize + " " + eight] + [useMpi] else [python]
    ensures SplitAll(head) == [python] + (if multiCard then Split(spawner) + [worldSize, eight, useMpi] else [])
  {
    SplitWord(python);
    if multiCard {
      assert head == [python, spawner, worldSize + " " + eight, useMpi];
      SplitOption(worldSize, eight);
      SplitWord(eight);
      SplitWord(useMpi);
      assert head[1..] == [spawner] + head[2..];
      assert head[2..] == [worldSize + " " + eight] + head[3..];
      assert head[3..] == [useMpi] + [];
      SplitAllCons(useMpi, []);
      SplitAllCons(worldSize + " " + eight, head[3..]);
      SplitAllCons(spawner, head[2..]);
      SplitAllCons(python, head[1..]);
    } else {
      SplitAllCons(python, []);
    }
  }

  lemma ScriptGroupTokens(path: string, modelFlag: string, modelName: string, configFlag: string, gaudiConfig: string)
    requires Word(modelFlag) && Word(configFlag)
    ensures SplitAll([path, modelFlag + " " + modelName, configFlag + " " + gaudiConfig])
         == Split(path) + [modelFlag] + Split(modelName) + [configFlag] + Split(gaudiConfig)
  {
    SplitAllThree(path, modelFlag + " " + modelName, configFlag + " " + gaudiConfig);
    SplitOption(modelFlag, modelName);
    SplitOption(configFlag, gaudiConfig);
  }

  lemma TaskGroupTokens(datasetParameter: string, task: Option<string>, taskOption: string, doTrain: string, doEval: string)
    requires Word(doTrain) && Word(doEval)
    requires taskOption == if Truthy(task) then "--" + datasetParameter + " " + task.value else " "
    ensures SplitAll([taskOption, doTrain, doEval]) == TaskTokens(datasetParameter, task) + [doTrain, doEval]
  {
    SplitAllThree(taskOption, doTrain, doEval);
    if !Truthy(task) {
      SplitLeadingSpace([]);
      assert " " + [] == " ";
    }
    SplitWord(doTrain);
    SplitWord(doEval);
  }

  lemma OutputGroupTokens(outputFlag: string, outputDir: string, overwrite: string, lrFlag: string, lr: string)
    requires Word(outputFlag) && Word(overwrite) && Word(lrFlag)
    ensures SplitAll([outputFlag + " " + outputDir, overwrite, lrFlag + " " + lr])
         == [outputFlag] + Split(outputDir) + [overwrite, lrFlag] + Split(lr)
  {
    SplitAllThree(outputFlag + " " + outputDir, overwrite, lrFlag + " " + lr);
    SplitOption(outputFlag, outputDir);
    SplitWord(overwrite);
    SplitOption(lrFlag, lr);
  }

  lemma BatchGroupTokens(trainFlag: string, trainBatchSize: string, evalFlag: string, evalBatchSize: string,
                         epochsFlag: string, numEpochs: string)
    requires Word(trainFlag) && Word(evalFlag) && Word(epochsFlag)
    ensures SplitAll([trainFlag + " " + trainBatchSize, evalFlag + " " + evalBatchSize, " " + epochsFlag + " " + numEpochs])
         == [trainFlag] + Split(trainBatchSize) + [evalFlag] + Split(evalBatchSize) + [epochsFlag] + Split(numEpochs)
  {
    SplitAllThree(trainFlag + " " + trainBatchSize, evalFlag + " " + evalBatchSize, " " + epochsFlag + " " + numEpochs);
    SplitOption(trainFlag, trainBatchSize);
    SplitOption(evalFlag, evalBatchSize);
    assert " " + epochsFlag + " " + numEpochs == " " + (epochsFlag + " " + numEpochs);
    SplitLeadingSpace(epochsFlag + " " + numEpochs);
    SplitOption(epochsFlag, numEpochs);
  }

  lemma HabanaGroupTokens(habana: string, lazy: string, warmupFlag: string, warmupSteps: string)
    requires Word(habana) && Word(lazy) && Word(warmupFlag) && Word(warmupSteps)
    ensures SplitAll([habana, lazy, warmupFlag + " " + warmupSteps]) == [habana, lazy, warmupFlag, warmupSteps]
  {
    SplitAllThree(habana, lazy, warmupFlag + " " + warmupSteps);
    SplitWord(habana);
    SplitWord(lazy);
    SplitOption(warmupFlag, warmupSteps);
    SplitWord(warmupSteps);
  }

  /**
   * When every value is a single word, the command is the flags and values
   * themselves, each one token, in the order the list names them.
   */
  lemma LayoutOfWords(multiCard: bool, script: Script, modelName: string, gaudiConfig: string, outputDir: string,
                      lr: string, trainBatchSize: string, evalBatchSize: string, numEpochs: string,
                      datasetParameter: string, task: string)
    requires Word(script.Path()) && Word(script.Spawner()) && Word(modelName) && Word(gaudiConfig) && Word(outputDir)
    requires Word(lr) && Word(trainBatchSize) && Word(evalBatchSize) && Word(numEpochs)
    requires Word(datasetParameter) && Word(task)
    ensures Layout(multiCard, script, modelName, gaudiConfig, outputDir, lr, trainBatchSize, evalBatchSize, numEpochs,
                   datasetParameter, Some(task), None)
         == ["python3"] + (if multiCard then [script.Spawner(), "--world_size", "8", "--use_mpi"] else [])
            + [script.Path(), "--model_name_or_path", modelName, "--gaudi_config_name", gaudiConfig]
            + ["--" + datasetParameter, task, "--do_train", "--do_eval"]
            + ["--output_dir", outputDir, "--overwrite_output_dir", "--learning_rate", lr]
            + ["--per_device_train_batch_size", trainBatchSize, "--per_device_eval_batch_size", evalBatchSize,
               "--num_train_epochs", numEpochs]
            + ["--use_habana", "--use_lazy_mode", "--throughput_warmup_steps", "2"]
  {
    var launcher := ["python3"] + (if multiCard then [script.Spawner(), "--world_size", "8", "--use_mpi"] else []);
    assert Launcher(multiCard, script) == launcher by {
      SplitWord(script.Spawner());
    }
    ScriptAndTaskOfWords(script, modelName, gaudiConfig, datasetParameter, task);
    OutputAndBatchOfWords(outputDir, lr, trainBatchSize, evalBatchSize, numEpochs);
    var g1 := [script.Path(), "--model_name_or_path", modelName, "--gaudi_config_name", gaudiConfig];
    var g2 := ["--" + datasetParameter, task, "--do_train", "--do_eval"];
    var g3 := ["--output_dir", outputDir, "--overwrite_output_dir", "--learning_rate", lr];
    var g4 := ["--per_device_train_batch_size", trainBatchSize, "--per_device_eval_batch_size", evalBatchSize,
               "--num_train_epochs", numEpochs];
    var g5 := ["--use_habana", "--use_lazy_mode", "--throughput_warmup_steps", "2"];
    assert ExtraArguments(None) == [];
    AppendFive(launcher, g1, g2, g3, g4, g5);
    AppendEmpty(launcher + g1 + g2 + g3 + g4 + g5);
  }

  lemma ScriptAndTaskOfWords(script: Script, modelName: string, gaudiConfig: string, datasetParameter: string, task: string)
    requires Word(script.Path()) && Word(modelName) && Word(gaudiConfig) && Word(datasetParameter) && Word(task)
    ensures Split(script.Path()) + ["--model_name_or_path"] + Split(modelName) + ["--gaudi_config_name"] + Split(gaudiConfig)
         == [script.Path(), "--model_name_or_path", modelName, "--gaudi_config_name", gaudiConfig]
    ensures TaskTokens(datasetParameter, Some(task)) + ["--do_train", "--do_eval"]
         == ["--" + datasetParameter, task, "--do_train", "--do_eval"]
  {
    SplitWord(script.Path());
    SplitWord(modelName);
    SplitWord(gaudiConfig);
    DashedWord(datasetParameter);
    SplitOption("--" + datasetParameter, task);
    SplitWord(task);
  }

  lemma OutputAndBatchOfWords(outputDir: string, lr: string, trainBatchSize: string, evalBatchSize: string, numEpochs: string)
    requires Word(outputDir) && Word(lr) && Word(trainBatchSize) && Word(evalBatchSize) && Word(numEpochs)
    ensures ["--output_dir"] + Split(outputDir) + ["--overwrite_output_dir", "--learning_rate"] + Split(lr)
         == ["--output_dir", outputDir, "--overwrite_output_dir", "--learning_rate", lr]
    ensures ["--per_device_train_batch_size"] + Split(trainBatchSize) + ["--per_device_eval_batch_size"]
            + Split(evalBatchSize) + ["--num_train_epochs"] + Split(numEpochs)
         == ["--per_device_train_batch_size", trainBatchSize, "--per_device_eval_batch_size", evalBatchSize,
             "--num_train_epochs", numEpochs]
  {
    SplitWord(outputDir);
    SplitWord(lr);
    SplitWord(trainBatchSize);
    SplitWord(evalBatchSize);
    SplitWord(numEpochs);
  }

  /** `--` in front of a word is still a word. */
  lemma DashedWord(w: string)
    requires Word(w)
    ensures Word("--" + w)
  {
    var d := "--" + w;
    assert forall j :: 0 <= j < |d| ==> d[j] == '-' || d[j] == w[j - 2];
  }
}
