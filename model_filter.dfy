/**
 * `_get_supported_models_for_script`: flattens the ordered mapping
 * "model type -> list of (model_name_or_path, gaudi_config_name)" into the
 * list of pairs whose model type can run a given task.
 *
 * The tables the harness imports (CONFIG_MAPPING, the task mappings and the
 * lists of valid model types) are parameters here.
 */
module ModelFilter {
  import opened Outcomes

  /** (model_name_or_path, gaudi_config_name) */
  datatype ModelEntry = ModelEntry(modelName: string, gaudiConfig: string)

  /** One item of MODELS_TO_TEST_MAPPING, in the dictionary's iteration order. */
  datatype TypeGroup = TypeGroup(modelType: string, models: seq<ModelEntry>)

  /**
   * A model type is kept when its configuration class is a key of the task
   * mapping AND the type is listed as valid for the task.
   */
  predicate Kept(modelType: string, configMapping: map<string, string>, taskConfigs: set<string>, valid: seq<string>)
  {
    modelType in configMapping && configMapping[modelType] in taskConfigs && modelType in valid
  }

  /** `is_valid_model_type`: the CONFIG_MAPPING lookup raises KeyError for an unknown type. */
  function IsValidModelType(modelType: string, configMapping: map<string, string>, taskConfigs: set<string>, valid: seq<string>): (r: Result<bool>)
    ensures r.Err? <==> modelType !in configMapping
    ensures r.Err? ==> r.error == UnknownModelType(modelType)
    ensures r.Ok? ==> (r.value <==> Kept(modelType, configMapping, taskConfigs, valid))
  {
    if modelType !in configMapping then Err(UnknownModelType(modelType))
    else Ok(configMapping[modelType] in taskConfigs && modelType in valid)
  }

  /**
   * The nested comprehension, one model type at a time. The predicate is
   * evaluated for each pair, so a type with an empty list is never looked up.
   */
  function SupportedModels(groups: seq<TypeGroup>, configMapping: map<string, string>, taskConfigs: set<string>, valid: seq<string>): Result<seq<ModelEntry>>
  {
    if groups == [] then Ok([])
    else
      var g := groups[0];
      var kept :- if g.models == [] then Ok([])
                  else
                    var keep :- IsValidModelType(g.modelType, configMapping, taskConfigs, valid);
                    Ok(if keep then g.models else []);
      var rest :- SupportedModels(groups[1..], configMapping, taskConfigs, valid);
      Ok(kept + rest)
  }

  /** The pairs of one model type, each tagged with that type. */
  function Tag(t: string, models: seq<ModelEntry>): (vs: seq<(string, ModelEntry)>)
    ensures |vs| == |models|
    ensures forall k :: 0 <= k < |models| ==> vs[k] == (t, models[k])
  {
    if models == [] then [] else [(t, models[0])] + Tag(t, models[1..])
  }

  /** Every (model type, pair) the comprehension visits, in visiting order. */
  function Visits(groups: seq<TypeGroup>): (vs: seq<(string, ModelEntry)>)
    ensures forall t, e :: (t, e) in vs <==> exists i :: 0 <= i < |groups| && t == groups[i].modelType && e in groups[i].models
  {
    if groups == [] then []
    else
      var g := groups[0];
      var here := Tag(g.modelType, g.models);
      assert forall t, e :: (t, e) in here <==> t == g.modelType && e in g.models by {
        forall t, e | t == g.modelType && e in g.models ensures (t, e) in here {
          var k :| 0 <= k < |g.models| && g.models[k] == e;
          assert here[k] == (t, e);
        }
      }
      var rest := Visits(groups[1..]);
      assert forall t, e :: (t, e) in rest <==> exists i :: 1 <= i < |groups| && t == groups[i].modelType && e in groups[i].models by {
        forall t, e | (exists i :: 1 <= i < |groups| && t == groups[i].modelType && e in groups[i].models) ensures (t, e) in rest {
          var i :| 1 <= i < |groups| && t == groups[i].modelType && e in groups[i].models;
          assert groups[1..][i - 1] == groups[i];
        }
      }
      here + rest
  }

  /**
   * Reference definition: one filter step per visited pair, the way the
   * comprehension tests the type of every pair it visits and keeps the pair
   * when the test is true.
   */
  function FilterVisits(vs: seq<(string, ModelEntry)>, configMapping: map<string, string>, taskConfigs: set<string>, valid: seq<string>): Result<seq<ModelEntry>>
  {
    if vs == [] then Ok([])
    else
      var keep :- IsValidModelType(vs[0].0, configMapping, taskConfigs, valid);
      var rest :- FilterVisits(vs[1..], configMapping, taskConfigs, valid);
      Ok(if keep then [vs[0].1] + rest else rest)
  }

  lemma {:induction false} FilterVisitsAppend(a: seq<(string, ModelEntry)>, b: seq<(string, ModelEntry)>, configMapping: map<string, string>, taskConfigs: set<string>, valid: seq<string>)
    ensures FilterVisits(a, configMapping, taskConfigs, valid).Err? ==>
      FilterVisits(a + b, configMapping, taskConfigs, valid) == FilterVisits(a, configMapping, taskConfigs, valid)
    ensures FilterVisits(a, configMapping, taskConfigs, valid).Ok? && FilterVisits(b, configMapping, taskConfigs, valid).Err? ==>
      FilterVisits(a + b, configMapping, taskConfigs, valid) == FilterVisits(b, configMapping, taskConfigs, valid)
    ensures FilterVisits(a, configMapping, taskConfigs, valid).Ok? && FilterVisits(b, configMapping, taskConfigs, valid).Ok? ==>
      FilterVisits(a + b, configMapping, taskConfigs, valid) ==
        Ok(FilterVisits(a, configMapping, taskConfigs, valid).value + FilterVisits(b, configMapping, taskConfigs, valid).value)
  {
    if a == [] {
      assert a + b == b;
      if FilterVisits(b, configMapping, taskConfigs, valid).Ok? {
        var rb := FilterVisits(b, configMapping, taskConfigs, valid).value;
        assert [] + rb == rb;
      }
    } else {
      assert (a + b)[0] == a[0];
      assert (a + b)[1..] == a[1..] + b;
      FilterVisitsAppend(a[1..], b, configMapping, taskConfigs, valid);
      var head := IsValidModelType(a[0].0, configMapping, taskConfigs, valid);
      if head.Ok? && FilterVisits(a[1..], configMapping, taskConfigs, valid).Ok? && FilterVisits(b, configMapping, taskConfigs, valid).Ok? {
        var ra := FilterVisits(a[1..], configMapping, taskConfigs, valid).value;
        var rb := FilterVisits(b, configMapping, taskConfigs, valid).value;
        if head.value {
          assert [a[0].1] + (ra + rb) == ([a[0].1] + ra) + rb;
        }
      }
    }
  }

  /** The pairs of one model type are all kept, or all dropped. */
  lemma {:induction false} FilterOneType(t: string, models: seq<ModelEntry>, configMapping: map<string, string>, taskConfigs: set<string>, valid: seq<string>)
    requires models != []
    ensures FilterVisits(Tag(t, models), configMapping, taskConfigs, valid) ==
      (match IsValidModelType(t, configMapping, taskConfigs, valid)
       case Err(e) => Err(e)
       case Ok(keep) => Ok(if keep then models else []))
  {
    var here := Tag(t, models);
    if |models| > 1 {
      var tail := models[1..];
      assert here[1..] == Tag(t, tail);
      FilterOneType(t, tail, configMapping, taskConfigs, valid);
      if IsValidModelType(t, configMapping, taskConfigs, valid) == Ok(true) {
        assert [models[0]] + tail == models;
      }
    } else {
      assert here[1..] == [];
      if IsValidModelType(t, configMapping, taskConfigs, valid) == Ok(true) {
        assert [models[0]] + [] == models;
      }
    }
  }

  /**
   * The type-by-type definition agrees with the pair-by-pair reference: the
   * output keeps the mapping's order and, within a type, the list's order,
   * and the first unknown type that has pairs raises.
   */
  lemma {:induction false} SupportedModelsIsPairFilter(groups: seq<TypeGroup>, configMapping: map<string, string>, taskConfigs: set<string>, valid: seq<string>)
    ensures SupportedModels(groups, configMapping, taskConfigs, valid) == FilterVisits(Visits(groups), configMapping, taskConfigs, valid)
  {
    if groups != [] {
      var g := groups[0];
      var here := Tag(g.modelType, g.models);
      assert Visits(groups) == here + Visits(groups[1..]);
      FilterVisitsAppend(here, Visits(groups[1..]), configMapping, taskConfigs, valid);
      SupportedModelsIsPairFilter(groups[1..], configMapping, taskConfigs, valid);
      if g.models == [] {
        assert here == [];
      } else {
        FilterOneType(g.modelType, g.models, configMapping, taskConfigs, valid);
      }
      var rest := SupportedModels(groups[1..], configMapping, taskConfigs, valid);
      var kept: Result<seq<ModelEntry>> :=
        if g.models == [] then Ok([])
        else match IsValidModelType(g.modelType, configMapping, taskConfigs, valid)
          case Err(e) => Err(e)
          case Ok(keep) => Ok(if keep then g.models else []);
      assert FilterVisits(here, configMapping, taskConfigs, valid) == kept;
      if kept.Ok? && rest.Ok? {
        assert SupportedModels(groups, configMapping, taskConfigs, valid) == Ok(kept.value + rest.value);
      }
    }
  }

  /**
   * A pair is in the result iff it is listed under some model type whose
   * configuration class is a key of the task mapping and which is in the
   * valid list.
   */
  lemma {:induction false} SupportedModelsMembership(groups: seq<TypeGroup>, configMapping: map<string, string>, taskConfigs: set<string>, valid: seq<string>, e: ModelEntry)
    requires SupportedModels(groups, configMapping, taskConfigs, valid).Ok?
    ensures e in SupportedModels(groups, configMapping, taskConfigs, valid).value <==>
      exists i :: 0 <= i < |groups| && e in groups[i].models && Kept(groups[i].modelType, configMapping, taskConfigs, valid)
  {
    if groups != [] {
      var g := groups[0];
      var r := SupportedModels(groups, configMapping, taskConfigs, valid).value;
      SupportedModelsMembership(groups[1..], configMapping, taskConfigs, valid, e);
      var rest := SupportedModels(groups[1..], configMapping, taskConfigs, valid).value;
      var kept := if g.models != [] && Kept(g.modelType, configMapping, taskConfigs, valid) then g.models else [];
      assert r == kept + rest;
      if exists i :: 1 <= i < |groups| && e in groups[i].models && Kept(groups[i].modelType, configMapping, taskConfigs, valid) {
        var i :| 1 <= i < |groups| && e in groups[i].models && Kept(groups[i].modelType, configMapping, taskConfigs, valid);
        assert groups[1..][i - 1] == groups[i];
      }
      if e in rest {
        var i :| 0 <= i < |groups[1..]| && e in groups[1..][i].models && Kept(groups[1..][i].modelType, configMapping, taskConfigs, valid);
        assert groups[i + 1] == groups[1..][i];
      }
    }
  }

  /**
   * The filter fails exactly when some model type that has pairs is missing
   * from CONFIG_MAPPING, and it reports the first such type in mapping order.
   */
  lemma {:induction false} SupportedModelsError(groups: seq<TypeGroup>, configMapping: map<string, string>, taskConfigs: set<string>, valid: seq<string>)
    ensures SupportedModels(groups, configMapping, taskConfigs, valid).Err? <==>
      exists i :: 0 <= i < |groups| && groups[i].models != [] && groups[i].modelType !in configMapping
    ensures SupportedModels(groups, configMapping, taskConfigs, valid).Err? ==>
      exists i :: 0 <= i < |groups| && groups[i].models != [] && groups[i].modelType !in configMapping &&
        (forall j :: 0 <= j < i ==> groups[j].models == [] || groups[j].modelType in configMapping) &&
        SupportedModels(groups, configMapping, taskConfigs, valid).error == UnknownModelType(groups[i].modelType)
  {
    if groups != [] {
      var g := groups[0];
      SupportedModelsError(groups[1..], configMapping, taskConfigs, valid);
      if g.models != [] && g.modelType !in configMapping {
      } else {
        if exists i :: 1 <= i < |groups| && groups[i].models != [] && groups[i].modelType !in configMapping {
          var i :| 1 <= i < |groups| && groups[i].models != [] && groups[i].modelType !in configMapping;
          assert groups[1..][i - 1] == groups[i];
        }
        if SupportedModels(groups[1..], configMapping, taskConfigs, valid).Err? {
          var i :| 0 <= i < |groups[1..]| && groups[1..][i].models != [] && groups[1..][i].modelType !in configMapping &&
            (forall j :: 0 <= j < i ==> groups[1..][j].models == [] || groups[1..][j].modelType in configMapping) &&
            SupportedModels(groups[1..], configMapping, taskConfigs, valid).error == UnknownModelType(groups[1..][i].modelType);
          assert groups[i + 1] == groups[1..][i];
          forall j | 0 <= j < i + 1 ensures groups[j].models == [] || groups[j].modelType in configMapping {
            if j > 0 { assert groups[j] == groups[1..][j - 1]; }
          }
        }
      }
    }
  }
}
