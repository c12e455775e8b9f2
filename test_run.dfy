/**
 * The part of a generated test that only computes values: which script to
 * run, which baseline file to open, which hyperparameters to read from it,
 * the command line they make, and the block of the baseline the results are
 * judged against.
 *
 * Parsed JSON is a `Json` value. Python's `None`, whether it comes from a
 * JSON `null` or from `.get` on a missing key, is `JNull`. Numbers carry the
 * text Python prints for them next to their value.
 */
module TestRun {
  import opened Outcomes
  import opened Tokenizer
  import opened CommandLine
  import opened TestPlan

  datatype Json =
    | JNull
    | JBool(b: bool)
    | JNum(text: string, value: real)
    | JStr(s: string)
    | JArr(items: seq<Json>)
    | JObj(fields: map<string, Json>)

  /** `fields.get(key, default)` on a dictionary. */
  function Lookup(fields: map<string, Json>, key: string, default: Json): (r: Json)
    ensures key in fields ==> r == fields[key]
    ensures key !in fields ==> r == default
  {
    if key in fields then fields[key] else default
  }

  /** `value[key]` on a JSON value: KeyError for a missing key, TypeError for a non-dictionary. */
  function Index(value: Json, key: string): (r: Result<Json>)
    ensures r.Ok? <==> value.JObj? && key in value.fields
    ensures r.Ok? ==> r.value == value.fields[key]
    ensures !value.JObj? ==> r == Err(WrongType(key))
    ensures value.JObj? && key !in value.fields ==> r == Err(MissingKey(key))
  {
    if !value.JObj? then Err(WrongType(key))
    else if key !in value.fields then Err(MissingKey(key))
    else Ok(value.fields[key])
  }

  /** How an f-string renders a scalar hyperparameter. */
  function Render(value: Json, key: string): (r: Result<string>)
    ensures r.Ok? <==> !value.JArr? && !value.JObj?
    ensures value.JNull? ==> r == Ok("None")
    ensures value.JBool? ==> r == Ok(if value.b then "True" else "False")
    ensures value.JNum? ==> r == Ok(value.text)
    ensures value.JStr? ==> r == Ok(value.s)
  {
    match value
    case JNull => Ok("None")
    case JBool(b) => Ok(if b then "True" else "False")
    case JNum(text, _) => Ok(text)
    case JStr(s) => Ok(s)
    case _ => Err(WrongType(key))
  }

  /** One character as a string, the way `list += str` adds a string's characters. */
  function Chars(s: string): (r: seq<string>)
    ensures |r| == |s| && forall i :: 0 <= i < |s| ==> r[i] == [s[i]]
  {
    if s == [] then [] else [[s[0]]] + Chars(s[1..])
  }

  function Strings(items: seq<Json>): (r: Option<seq<string>>)
    ensures r.Some? <==> forall i :: 0 <= i < |items| ==> items[i].JStr?
    ensures r.Some? ==> |r.value| == |items| && forall i :: 0 <= i < |items| ==> r.value[i] == items[i].s
  {
    if items == [] then Some([])
    else if !items[0].JStr? then None
    else match Strings(items[1..])
      case None => None
      case Some(rest) => Some([items[0].s] + rest)
  }

  /**
   * The extra arguments as `_create_command_line` uses them: None is no extra
   * argument; a list must hold strings (`re.split` refuses anything else); a
   * string adds its characters one by one.
   */
  function ExtraArgumentsOf(value: Json): (r: Result<Option<seq<string>>>)
    ensures value.JNull? ==> r == Ok(None)
    ensures value.JArr? && Strings(value.items).Some? ==> r == Ok(Some(Strings(value.items).value))
    ensures value.JArr? && Strings(value.items).None? ==> r == Err(WrongType("extra_arguments"))
    ensures value.JStr? ==> r == Ok(Some(Chars(value.s)))
    ensures value.JBool? || value.JNum? || value.JObj? ==> r == Err(WrongType("extra_arguments"))
  {
    match value
    case JNull => Ok(None)
    case JArr(items) =>
      (match Strings(items)
       case Some(args) => Ok(Some(args))
       case None => Err(WrongType("extra_arguments")))
    case JStr(s) => Ok(Some(Chars(s)))
    case _ => Err(WrongType("extra_arguments"))
  }

  /** A directory entry the script glob looks at: a folder of the examples directory and a file in it. */
  datatype Entry = Entry(folder: string, fileName: string)

  function Glob(entries: seq<Entry>, exampleName: string): (r: seq<Entry>)
    ensures forall e :: e in r <==> e in entries && e.fileName == exampleName + ".py"
  {
    if entries == [] then []
    else (if entries[0].fileName == exampleName + ".py" then [entries[0]] else []) + Glob(entries[1..], exampleName)
  }

  /** The one script the glob finds: none is a RuntimeError, and so are several. */
  function SelectScript(exampleDir: string, entries: seq<Entry>, exampleName: string): (r: Result<Script>)
    ensures r.Err? <==> |Glob(entries, exampleName)| != 1
    ensures |Glob(entries, exampleName)| == 0 ==> r == Err(ScriptNotFound(exampleName))
    ensures |Glob(entries, exampleName)| > 1 ==> r == Err(ScriptNotUnique(exampleName))
    ensures r.Ok? ==> exists e :: e in entries && e.fileName == exampleName + ".py" && r.value == Script(exampleDir, e.folder, exampleName)
  {
    var found := Glob(entries, exampleName);
    if |found| == 0 then Err(ScriptNotFound(exampleName))
    else if |found| > 1 then Err(ScriptNotUnique(exampleName))
    else
      assert found[0] in found;
      Ok(Script(exampleDir, found[0].folder, exampleName))
  }

  /** The model name with every hyphen turned into an underscore. */
  function Underscored(s: string): (r: string)
    ensures |r| == |s|
    ensures forall i :: 0 <= i < |s| ==> r[i] == if s[i] == '-' then '_' else s[i]
  {
    if s == [] then [] else [if s[0] == '-' then '_' else s[0]] + Underscored(s[1..])
  }

  /** The text between slashes, in order, empty pieces included. */
  function Components(s: string): (r: seq<string>)
    ensures |r| >= 1
    ensures forall c :: c in r ==> '/' !in c
    ensures '/' !in s ==> r == [s]
  {
    if s == [] then [""]
    else
      var rest := Components(s[1..]);
      if s[0] == '/' then [""] + rest
      else
        assert rest[0] in rest;
        assert '/' !in s ==> '/' !in s[1..] && [s[0]] + s[1..] == s;
        [[s[0]] + rest[0]] + rest[1..]
  }

  /** The parts pathlib keeps: empty pieces and `.` are dropped. */
  function Parts(cs: seq<string>): (r: seq<string>)
    ensures forall p :: p in r <==> p in cs && p != "" && p != "."
  {
    if cs == [] then []
    else (if cs[0] != "" && cs[0] != "." then [cs[0]] else []) + Parts(cs[1..])
  }

  /** Joining the pieces with `/` gives the text back: no character is lost, moved or added. */
  lemma {:induction false} ComponentsRoundTrip(s: string)
    ensures Join(Components(s)) == s
  {
    if s != [] {
      var rest := Components(s[1..]);
      ComponentsRoundTrip(s[1..]);
      assert Join(Components(s)) == [s[0]] + s[1..] by {
        if s[0] == '/' {
          assert Components(s) == [""] + rest;
          JoinAfterEmpty(rest);
        } else {
          assert Components(s) == [[s[0]] + rest[0]] + rest[1..];
          JoinExtendFirst([s[0]], rest);
        }
      }
      assert [s[0]] + s[1..] == s;
    }
  }

  lemma JoinAfterEmpty(rest: seq<string>)
    requires rest != []
    ensures Join([""] + rest) == "/" + Join(rest)
  {
    JoinCons("", rest);
    EmptyAppend("/");
  }

  lemma EmptyAppend(a: string)
    ensures "" + a == a
  {}

  lemma JoinExtendFirst(x: string, rest: seq<string>)
    requires rest != []
    ensures Join([x + rest[0]] + rest[1..]) == x + Join(rest)
  {
    if |rest| > 1 {
      JoinCons(x + rest[0], rest[1..]);
      JoinUnfold(rest);
      AppendAssoc(x, rest[0] + "/", Join(rest[1..]));
    }
  }

  lemma JoinUnfold(rest: seq<string>)
    requires |rest| > 1
    ensures Join(rest) == rest[0] + "/" + Join(rest[1..])
  {}

  lemma AppendAssoc(a: string, b: string, c: string)
    ensures (a + b) + c == a + (b + c)
  {}

  lemma JoinCons(head: string, tail: seq<string>)
    requires tail != []
    ensures Join([head] + tail) == head + "/" + Join(tail)
  {
    assert ([head] + tail)[1..] == tail;
  }

  /** Every piece is empty or `.`. */
  predicate NoPart(cs: seq<string>)
  {
    forall c :: c in cs ==> c == "" || c == "."
  }

  /** No part is left exactly when every piece is empty or `.`. */
  lemma PartsEmpty(cs: seq<string>)
    ensures Parts(cs) == [] <==> NoPart(cs)
  {
    if Parts(cs) != [] {
      assert Parts(cs)[0] in Parts(cs);
    }
  }

  /** Dropping pieces keeps the order of the pieces that stay. */
  lemma {:induction false} PartsAppend(a: seq<string>, b: seq<string>)
    ensures Parts(a + b) == Parts(a) + Parts(b)
  {
    if a == [] {
      assert a + b == b;
    } else {
      assert (a + b)[0] == a[0];
      assert (a + b)[1..] == a[1..] + b;
      PartsAppend(a[1..], b);
    }
  }

  /** The position of the last `.` in a name, if any. */
  function LastDot(name: string): (r: Option<nat>)
    ensures r.Some? ==> r.value < |name| && name[r.value] == '.' && '.' !in name[r.value + 1..]
    ensures r.None? ==> '.' !in name
  {
    if name == [] then None
    else if name[|name| - 1] == '.' then Some(|name| - 1)
    else
      var r := LastDot(name[..|name| - 1]);
      assert name == name[..|name| - 1] + [name[|name| - 1]];
      r
  }

  /**
   * `PurePath.with_suffix` on the last part: a suffix is a last `.` that is
   * neither the first nor the last character, and it is replaced; otherwise
   * the new suffix is appended.
   */
  function WithSuffix(name: string, suffix: string): (r: string)
    ensures |suffix| <= |r| <= |name| + |suffix|
    ensures r[|r| - |suffix|..] == suffix && r[..|r| - |suffix|] == name[..|r| - |suffix|]
    ensures '.' !in name ==> r == name + suffix
  {
    match LastDot(name)
    case Some(i) => if 0 < i < |name| - 1 then name[..i] + suffix else name + suffix
    case None => name + suffix
  }

  function Join(parts: seq<string>): (r: string)
    ensures parts != [] ==> var last := parts[|parts| - 1]; |last| <= |r| && r[|r| - |last|..] == last
  {
    if parts == [] then [] else if |parts| == 1 then parts[0] else parts[0] + "/" + Join(parts[1..])
  }

  /**
   * The baseline file of a model: its name with underscores for hyphens,
   * read as a path whose suffix becomes `.json`, below the baseline directory
   * (a leading `/` makes it absolute). A name with no part left is a ValueError.
   */
  function BaselineFileName(modelName: string): (r: Result<string>)
    ensures r.Err? ==> r.error == EmptyPathName(Underscored(modelName))
    ensures r.Ok? ==> JsonName(r.value)
  {
    JsonPath(Underscored(modelName))
  }

  /** A name read as a path with its suffix set to `.json`, relative to the baseline directory unless it starts with `/`. */
  function JsonPath(name: string): (r: Result<string>)
    ensures r.Err? <==> NoPart(Components(name))
    ensures r.Err? ==> r.error == EmptyPathName(name)
    ensures r.Ok? ==> JsonName(r.value)
  {
    var parts := Parts(Components(name));
    PartsEmpty(Components(name));
    if parts == [] then Err(EmptyPathName(name))
    else
      var path := Join(parts[..|parts| - 1] + [WithSuffix(parts[|parts| - 1], ".json")]);
      JoinWithJsonLast(parts[..|parts| - 1], WithSuffix(parts[|parts| - 1], ".json"));
      SlashKeepsJsonName(path);
      Ok(if name != [] && name[0] == '/' then "/" + path else path)
  }

  /** A path that ends in `.json`. */
  predicate JsonName(p: string) { |p| >= 5 && p[|p| - 5..] == ".json" }

  lemma JoinWithJsonLast(init: seq<string>, last: string)
    requires JsonName(last)
    ensures JsonName(Join(init + [last]))
  {
    var ps := init + [last];
    assert ps[|ps| - 1] == last;
    var r := Join(ps);
    assert r[|r| - 5..] == r[|r| - |last|..][|last| - 5..];
  }

  lemma SlashKeepsJsonName(p: string)
    requires JsonName(p)
    ensures JsonName("/" + p)
  {
    assert ("/" + p)[|p| + 1 - 5..] == p[|p| - 5..];
  }

  /** A name that is one part, with no slash, keeps its place; only its suffix changes. */
  lemma OnePartJsonPath(name: string)
    requires name != [] && name != "." && '/' !in name
    ensures JsonPath(name) == Ok(WithSuffix(name, ".json"))
  {
    assert Components(name) == [name];
    assert Parts([name]) == [name] + Parts([]);
    assert name[0] in name;
  }

  /** The hyperparameters of one run, rendered, and the baseline block its results are judged against. */
  datatype Settings = Settings(lr: string, trainBatchSize: string, evalBatchSize: string, numEpochs: string,
                               extraArguments: Option<seq<string>>, regressionBaseline: Json)

  /**
   * The keyword arguments of the `_create_command_line` call, read in the
   * order Python evaluates them: learning rate, train batch size and extra
   * arguments from `distribution.<mode>`, eval batch size and epochs from
   * the task's top level. A missing key reads as None (`.get`), and `.get`
   * on anything but a dictionary is an AttributeError, which the first
   * read, of the learning rate, meets first.
   */
  function ReadSettings(baseline: Json, multiCard: bool): (r: Result<Settings>)
    ensures r.Ok? ==> WellFormedTask(baseline, multiCard)
    ensures r.Ok? ==> r.value.regressionBaseline == baseline.fields["distribution"].fields[Mode(multiCard)]
  {
    var distribution := Mode(multiCard);
    if !baseline.JObj? then Err(NotAnObject("distribution"))
    else
      var d := Lookup(baseline.fields, "distribution", JNull);
      if !d.JObj? then Err(NotAnObject(distribution))
      else
        var block := Lookup(d.fields, distribution, JNull);
        if !block.JObj? then Err(NotAnObject("learning_rate"))
        else
          var lrText :- Render(Lookup(block.fields, "learning_rate", JNull), "learning_rate");
          var trainText :- Render(Lookup(block.fields, "train_batch_size", JNull), "train_batch_size");
          var evalText :- Render(Lookup(baseline.fields, "eval_batch_size", JNull), "eval_batch_size");
          var epochsText :- Render(Lookup(baseline.fields, "num_train_epochs", JNull), "num_train_epochs");
          var extraArguments :- ExtraArgumentsOf(Lookup(block.fields, "extra_arguments", JArr([])));
          Ok(Settings(lrText, trainText, evalText, epochsText, extraArguments, block))
  }

  /** A task object of the documented shape, with the `distribution.<mode>` block of this run. */
  predicate WellFormedTask(baseline: Json, multiCard: bool)
  {
    && baseline.JObj?
    && "distribution" in baseline.fields
    && baseline.fields["distribution"].JObj?
    && Mode(multiCard) in baseline.fields["distribution"].fields
    && baseline.fields["distribution"].fields[Mode(multiCard)].JObj?
  }

  /** The block of the run's mode under `distribution`, in a well-formed task. */
  function Block(baseline: Json, multiCard: bool): map<string, Json>
    requires WellFormedTask(baseline, multiCard)
  {
    baseline.fields["distribution"].fields[Mode(multiCard)].fields
  }

  /**
   * The `.get` reads of a task: learning rate and train batch size come
   * from the block of the run's mode, eval batch size and epochs from the
   * top level, and the block itself is the regression baseline.
   */
  lemma SettingsSources(baseline: Json, multiCard: bool, lr: Json, train: Json, eval: Json, epochs: Json)
    requires WellFormedTask(baseline, multiCard)
    requires lr.JNum? && train.JNum? && eval.JNum? && epochs.JNum?
    requires "learning_rate" in Block(baseline, multiCard) && Block(baseline, multiCard)["learning_rate"] == lr
    requires "train_batch_size" in Block(baseline, multiCard) && Block(baseline, multiCard)["train_batch_size"] == train
    requires "extra_arguments" !in Block(baseline, multiCard)
    requires "eval_batch_size" in baseline.fields && baseline.fields["eval_batch_size"] == eval
    requires "num_train_epochs" in baseline.fields && baseline.fields["num_train_epochs"] == epochs
    ensures ReadSettings(baseline, multiCard)
         == Ok(Settings(lr.text, train.text, eval.text, epochs.text, Some([]),
                        baseline.fields["distribution"].fields[Mode(multiCard)]))
  {
  }

  /**
   * A list of strings under `extra_arguments` in the block of the run's mode
   * becomes the extra arguments, string for string and in order.
   */
  lemma SettingsWithExtraArguments(baseline: Json, multiCard: bool, lr: Json, train: Json, eval: Json, epochs: Json,
                                   args: seq<string>)
    requires WellFormedTask(baseline, multiCard)
    requires lr.JNum? && train.JNum? && eval.JNum? && epochs.JNum?
    requires "learning_rate" in Block(baseline, multiCard) && Block(baseline, multiCard)["learning_rate"] == lr
    requires "train_batch_size" in Block(baseline, multiCard) && Block(baseline, multiCard)["train_batch_size"] == train
    requires "extra_arguments" in Block(baseline, multiCard)
    requires Block(baseline, multiCard)["extra_arguments"] == JArr(seq(|args|, i requires 0 <= i < |args| => JStr(args[i])))
    requires "eval_batch_size" in baseline.fields && baseline.fields["eval_batch_size"] == eval
    requires "num_train_epochs" in baseline.fields && baseline.fields["num_train_epochs"] == epochs
    ensures ReadSettings(baseline, multiCard)
         == Ok(Settings(lr.text, train.text, eval.text, epochs.text, Some(args),
                        baseline.fields["distribution"].fields[Mode(multiCard)]))
  {
    var items := seq(|args|, i requires 0 <= i < |args| => JStr(args[i]));
    assert Strings(items).Some?;
    assert Strings(items).value == args;
  }

  /** A task without a `distribution` block for the run's mode: `.get` is called on None. */
  lemma MissingModeBlock(baseline: Json, multiCard: bool)
    requires baseline.JObj? && "distribution" in baseline.fields && baseline.fields["distribution"].JObj?
    requires Mode(multiCard) !in baseline.fields["distribution"].fields
    ensures ReadSettings(baseline, multiCard) == Err(NotAnObject("learning_rate"))
  {
  }

  /** The block of the other mode plays no part in a run. */
  lemma OtherModeIgnored(baseline: Json, multiCard: bool, other: Json)
    requires baseline.JObj? && "distribution" in baseline.fields && baseline.fields["distribution"].JObj?
    ensures var d := baseline.fields["distribution"].fields;
            var changed := JObj(baseline.fields["distribution" := JObj(d[Mode(!multiCard) := other])]);
            ReadSettings(changed, multiCard) == ReadSettings(baseline, multiCard)
  {
    var d := baseline.fields["distribution"].fields;
    assert Mode(!multiCard) != Mode(multiCard);
  }

  /** Values at the top level under the block's own keys play no part in learning rate or train batch size. */
  lemma TopLevelNotRead(baseline: Json, multiCard: bool, lr: Json, train: Json, extra: Json)
    requires baseline.JObj?
    ensures var changed := JObj(baseline.fields["learning_rate" := lr]["train_batch_size" := train]
                                               ["extra_arguments" := extra]);
            ReadSettings(changed, multiCard) == ReadSettings(baseline, multiCard)
  {
  }

  /**
   * A model name with no `/` and no `.` names the file of the same name,
   * with `_` for `-`, followed by `.json`.
   */
  lemma PlainBaselineFileName(modelName: string)
    requires modelName != []
    requires forall i :: 0 <= i < |modelName| ==> modelName[i] != '/' && modelName[i] != '.'
    ensures BaselineFileName(modelName) == Ok(Underscored(modelName) + ".json")
  {
    var name := Underscored(modelName);
    UnderscoredPlain(modelName);
    OnePartJsonPath(name);
    NoDotWithSuffix(name, ".json");
  }

  lemma UnderscoredPlain(modelName: string)
    requires modelName != []
    requires forall i :: 0 <= i < |modelName| ==> modelName[i] != '/' && modelName[i] != '.'
    ensures var name := Underscored(modelName); name != [] && name != "." && '/' !in name && '.' !in name
  {
    var name := Underscored(modelName);
    assert name[0] != '.';
  }

  /** Without a dot, the suffix is appended. */
  lemma NoDotWithSuffix(name: string, suffix: string)
    requires '.' !in name
    ensures WithSuffix(name, suffix) == name + suffix
  {
    assert LastDot(name).None?;
  }

  /**
   * The file name never holds a `-`: every hyphen of the model name became
   * an underscore.
   */
  lemma BaselineFileNameHasNoHyphen(modelName: string)
    requires BaselineFileName(modelName).Ok?
    ensures '-' !in BaselineFileName(modelName).value
  {
    var name := Underscored(modelName);
    var parts := Parts(Components(name));
    ComponentsHyphenFree(name);
    var last := parts[|parts| - 1];
    assert last in parts;
    WithSuffixHyphenFree(last);
    var all := parts[..|parts| - 1] + [WithSuffix(last, ".json")];
    forall p | p in all ensures '-' !in p {
      if p in parts[..|parts| - 1] {
        assert p in parts;
      }
    }
    JoinHyphenFree(all);
  }

  lemma {:induction false} ComponentsHyphenFree(s: string)
    requires '-' !in s
    ensures forall c :: c in Components(s) ==> '-' !in c
  {
    if s != [] {
      ComponentsHyphenFree(s[1..]);
      var rest := Components(s[1..]);
      if s[0] != '/' {
        assert rest[0] in rest;
        forall c | c in rest[1..] ensures c in rest { }
      }
    }
  }

  lemma WithSuffixHyphenFree(name: string)
    requires '-' !in name
    ensures '-' !in WithSuffix(name, ".json")
  {
    match LastDot(name)
    case Some(i) =>
      if 0 < i < |name| - 1 {
        assert forall c :: c in name[..i] ==> c in name;
      }
    case None =>
  }

  lemma {:induction false} JoinHyphenFree(parts: seq<string>)
    requires forall p :: p in parts ==> '-' !in p
    ensures '-' !in Join(parts)
  {
    if |parts| > 1 {
      assert parts[0] in parts;
      forall p | p in parts[1..] ensures p in parts { }
      JoinHyphenFree(parts[1..]);
    }
  }

  /** A dot inside the last part starts a suffix that `.json` replaces. */
  lemma DottedNameLosesSuffix(stem: string, tail: string)
    requires stem != [] && tail != []
    requires forall i :: 0 <= i < |stem| ==> stem[i] !in "/.-"
    requires forall i :: 0 <= i < |tail| ==> tail[i] !in "/.-"
    ensures BaselineFileName(stem + "." + tail) == Ok(stem + ".json")
  {
    var name := stem + "." + tail;
    DottedNamePlain(stem, tail);
    UnderscoredFixed(name);
    OnePartJsonPath(name);
    DottedWithSuffix(stem, tail);
  }

  lemma DottedNamePlain(stem: string, tail: string)
    requires stem != [] && tail != []
    requires forall i :: 0 <= i < |stem| ==> stem[i] !in "/.-"
    requires forall i :: 0 <= i < |tail| ==> tail[i] !in "/.-"
    ensures var name := stem + "." + tail; name != "." && '/' !in name && '-' !in name
    ensures '.' !in stem && '.' !in tail
  {
    var name := stem + "." + tail;
    assert |name| >= 3;
    forall i | 0 <= i < |name| ensures name[i] != '/' && name[i] != '-' {
      if i < |stem| { assert name[i] == stem[i]; }
      else if i > |stem| { assert name[i] == tail[i - |stem| - 1]; }
    }
  }

  /** The text after the last dot is the suffix that `.json` replaces. */
  lemma DottedWithSuffix(stem: string, tail: string)
    requires stem != [] && tail != []
    requires '.' !in stem && '.' !in tail
    ensures WithSuffix(stem + "." + tail, ".json") == stem + ".json"
  {
    var name := stem + "." + tail;
    LastDotNoDotTail(stem + ".", tail);
    assert LastDot(stem + ".") == Some(|stem|);
    assert name[..|stem|] == stem;
  }

  lemma {:induction false} LastDotNoDotTail(s: string, t: string)
    requires '.' !in t
    ensures LastDot(s + t) == LastDot(s)
    decreases |t|
  {
    if t != [] {
      var u := s + t;
      assert u[..|u| - 1] == s + t[..|t| - 1];
      assert u[|u| - 1] == t[|t| - 1];
      assert t[|t| - 1] in t;
      assert forall c :: c in t[..|t| - 1] ==> c in t;
      LastDotNoDotTail(s, t[..|t| - 1]);
    } else {
      assert s + t == s;
    }
  }

  lemma UnderscoredFixed(s: string)
    requires '-' !in s
    ensures Underscored(s) == s
  {
  }

  /** A run prepared: the tokens of its command and the baseline block its results are judged against. */
  datatype Run = Run(script: Script, tokens: seq<string>, regressionBaseline: Json)

  /**
   * The value part of the generated `test`, up to the subprocess: find the
   * script, open the baseline file of the model and the entry of the task,
   * read the settings and build the command.
   */
  method PrepareRun(exampleDir: string, entries: seq<Entry>, exampleName: string, baselineFiles: map<string, Json>,
                    taskName: string, modelName: string, gaudiConfig: string, multiCard: bool, tmpDir: string,
                    datasetParameter: string)
    returns (r: Result<Run>)
    ensures r.Ok? ==>
      && SelectScript(exampleDir, entries, exampleName) == Ok(r.value.script)
      && BaselineFileName(modelName).Ok?
      && BaselineFileName(modelName).value in baselineFiles
      && Index(baselineFiles[BaselineFileName(modelName).value], taskName).Ok?
      && var s := ReadSettings(Index(baselineFiles[BaselineFileName(modelName).value], taskName).value, multiCard);
         && s.Ok?
         && r.value.regressionBaseline == s.value.regressionBaseline
         && r.value.tokens == Layout(multiCard, r.value.script, modelName, gaudiConfig, tmpDir, s.value.lr,
                                     s.value.trainBatchSize, s.value.evalBatchSize, s.value.numEpochs,
                                     datasetParameter, Some(taskName), s.value.extraArguments)
    ensures r.Err? ==>
      || SelectScript(exampleDir, entries, exampleName).Err?
      || BaselineFileName(modelName).Err?
      || BaselineFileName(modelName).value !in baselineFiles
      || Index(baselineFiles[BaselineFileName(modelName).value], taskName).Err?
      || ReadSettings(Index(baselineFiles[BaselineFileName(modelName).value], taskName).value, multiCard).Err?
    ensures SelectScript(exampleDir, entries, exampleName).Err? ==> r == Err(SelectScript(exampleDir, entries, exampleName).error)
    ensures SelectScript(exampleDir, entries, exampleName).Ok? && BaselineFileName(modelName).Err? ==>
      r == Err(BaselineFileName(modelName).error)
    ensures SelectScript(exampleDir, entries, exampleName).Ok? && BaselineFileName(modelName).Ok?
            && BaselineFileName(modelName).value !in baselineFiles ==>
      r == Err(BaselineNotFound(BaselineFileName(modelName).value))
    ensures SelectScript(exampleDir, entries, exampleName).Ok? && BaselineFileName(modelName).Ok?
            && BaselineFileName(modelName).value in baselineFiles ==>
      var task := Index(baselineFiles[BaselineFileName(modelName).value], taskName);
      && (task.Err? ==> r == Err(task.error))
      && (task.Ok? && ReadSettings(task.value, multiCard).Err? ==> r == Err(ReadSettings(task.value, multiCard).error))
  {
    var script := SelectScript(exampleDir, entries, exampleName);
    if script.Err? {
      return Err(script.error);
    }
    var fileName := BaselineFileName(modelName);
    if fileName.Err? {
      return Err(fileName.error);
    }
    if fileName.value !in baselineFiles {
      return Err(BaselineNotFound(fileName.value));
    }
    var baseline := Index(baselineFiles[fileName.value], taskName);
    if baseline.Err? {
      return Err(baseline.error);
    }
    var settings := ReadSettings(baseline.value, multiCard);
    if settings.Err? {
      return Err(settings.error);
    }
    var s := settings.value;
    var tokens := CreateCommandLine(multiCard, script.value, modelName, gaudiConfig, tmpDir, s.lr, s.trainBatchSize,
                                    s.evalBatchSize, s.numEpochs, datasetParameter, Some(taskName), s.extraArguments);
    return Ok(Run(script.value, tokens, s.regressionBaseline));
  }
}
