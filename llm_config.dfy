/**
 * How the back end configures its chat models: a section of the YAML
 * configuration per model type, overridden key by key by environment
 * variables named `{TYPE}_MODEL__{key}`, turned into an Azure, DeepSeek or
 * OpenAI client, and cached per type.
 */
module LlmConfig {
  import opened Wrappers
  import opened Text
  import opened Seqs

  /** A YAML scalar. Environment variables are always strings. */
  datatype Value = Str(text: string) | Int(i: int) | Real(r: real) | Bool(b: bool) | Null

  /** A key of the configuration file: a mapping, or anything else. */
  datatype Entry = Section(fields: map<string, Value>) | Scalar(value: Value)

  type Conf = map<string, Entry>

  /** Python truthiness of a scalar. */
  predicate IsTruthy(v: Value)
  {
    match v
    case Str(s) => s != ""
    case Int(i) => i != 0
    case Real(r) => r != 0.0
    case Bool(b) => b
    case Null => false
  }

  /** The configuration key of each model type. */
  const TypeConfigKeys: map<string, string> :=
    map["reasoning" := "REASONING_MODEL", "basic" := "BASIC_MODEL", "vision" := "VISION_MODEL"]

  // ---------------------------------------------------------------------
  // _get_env_llm_conf
  // ---------------------------------------------------------------------

  function EnvPrefix(llmType: string): string
  {
    Upper(llmType) + "_MODEL__"
  }

  /** The environment's settings for a prefix: each later variable overwrites an earlier one with the same key. */
  function EnvConf(prefix: string, env: seq<(string, string)>): (conf: map<string, Value>)
    ensures forall k :: k in conf ==> conf[k].Str?
  {
    if env == [] then map[]
    else
      var conf := EnvConf(prefix, env[..|env| - 1]);
      var (key, value) := env[|env| - 1];
      if StartsWith(key, prefix) then conf[Lower(key[|prefix|..]) := Str(value)] else conf
  }

  /** The variable an entry of the environment sets for a prefix, if it has the prefix. */
  predicate Sets(prefix: string, entry: (string, string), k: string)
  {
    StartsWith(entry.0, prefix) && Lower(entry.0[|prefix|..]) == k
  }

  /**
   * A key is set exactly when some variable carries the prefix and lowercases
   * to it, and its value is that of the last such variable.
   */
  lemma {:induction false} EnvConfSpec(prefix: string, env: seq<(string, string)>, k: string)
    ensures k in EnvConf(prefix, env) <==> exists i :: 0 <= i < |env| && Sets(prefix, env[i], k)
    ensures k in EnvConf(prefix, env) ==>
              exists i :: 0 <= i < |env| && Sets(prefix, env[i], k) && EnvConf(prefix, env)[k] == Str(env[i].1)
                          && forall j :: i < j < |env| ==> !Sets(prefix, env[j], k)
  {
    if env != [] {
      var init := env[..|env| - 1];
      var last := env[|env| - 1];
      EnvConfSpec(prefix, init, k);
      EnvConfLast(prefix, env, k);
      if Sets(prefix, last, k) {
        assert env[|env| - 1] == last;
      } else if k in EnvConf(prefix, init) {
        var i :| 0 <= i < |init| && Sets(prefix, init[i], k) && EnvConf(prefix, init)[k] == Str(init[i].1)
                 && forall j :: i < j < |init| ==> !Sets(prefix, init[j], k);
        assert env[i] == init[i];
        forall j | i < j < |env| ensures !Sets(prefix, env[j], k) {
          if j < |init| {
            assert env[j] == init[j];
          }
        }
      } else {
        forall i | 0 <= i < |env| ensures !Sets(prefix, env[i], k) {
          if i < |init| {
            assert env[i] == init[i];
          }
        }
      }
    }
  }

  /** The last variable sets its key and leaves every other key as the earlier ones left it. */
  lemma EnvConfLast(prefix: string, env: seq<(string, string)>, k: string)
    requires env != []
    ensures var before, last := EnvConf(prefix, env[..|env| - 1]), env[|env| - 1];
            (k in EnvConf(prefix, env) <==> Sets(prefix, last, k) || k in before)
            && (Sets(prefix, last, k) ==> EnvConf(prefix, env)[k] == Str(last.1))
            && (!Sets(prefix, last, k) && k in before ==> EnvConf(prefix, env)[k] == before[k])
  {
  }
  /** `_get_env_llm_conf`: one pass over the environment. */
  method GetEnvLlmConf(llmType: string, env: seq<(string, string)>) returns (conf: map<string, Value>)
    ensures conf == EnvConf(EnvPrefix(llmType), env)
  {
    var prefix := EnvPrefix(llmType);
    conf := map[];
    var i := 0;
    while i < |env|
      invariant 0 <= i <= |env|
      invariant conf == EnvConf(prefix, env[..i])
    {
      assert env[..i + 1][..i] == env[..i];
      var (key, value) := env[i];
      if StartsWith(key, prefix) {
        conf := conf[Lower(key[|prefix|..]) := Str(value)];
      }
      i := i + 1;
    }
    assert env[..i] == env;
  }

  // ---------------------------------------------------------------------
  // _create_llm_use_conf
  // ---------------------------------------------------------------------

  /** `{**yaml, **env}`: the keys of both, the environment's value where both have one. */
  function Merge(yaml: map<string, Value>, env: map<string, Value>): (m: map<string, Value>)
    ensures m.Keys == yaml.Keys + env.Keys
    ensures forall k :: k in env ==> m[k] == env[k]
    ensures forall k :: k in yaml && k !in env ==> m[k] == yaml[k]
  {
    yaml + env
  }

  function Get(m: map<string, Value>, k: string, d: Value): Value
  {
    if k in m then m[k] else d
  }

  datatype Client =
    | AzureClient(endpoint: Value, deployment: Value, apiKey: Value, apiVersion: Value,
                  temperature: Value, maxCompletionTokens: Value)
    | DeepSeekClient(kwargs: map<string, Value>)
    | OpenAiClient(kwargs: map<string, Value>)

  /**
   * Why no client was made: the three ValueErrors, and the TypeError of
   * testing a base_url that is not a string for "azure".
   */
  datatype LlmError = UnknownType | InvalidSection | NoConfiguration | BaseUrlNotText

  datatype Created = Made(client: Client) | Rejected(error: LlmError)

  /** The YAML section of a model type: `conf.get(key, {})`, None when it is not a mapping. */
  function YamlSection(conf: Conf, configKey: string): Option<map<string, Value>>
  {
    if configKey !in conf then Some(map[])
    else if conf[configKey].Section? then Some(conf[configKey].fields)
    else None
  }

  /** The client for a merged, non-empty configuration. */
  function ClientFor(llmType: string, merged: map<string, Value>): (r: Created)
    ensures r.Rejected? <==> !Get(merged, "base_url", Str("")).Str?
    ensures r.Made? && r.client.AzureClient? <==>
              Get(merged, "base_url", Str("")).Str? && Contains(Get(merged, "base_url", Str("")).text, "azure")
    ensures r.Made? && r.client.DeepSeekClient? ==>
              llmType == "reasoning"
              && r.client.kwargs.Keys == merged.Keys - {"base_url"} + {"api_base"}
              && r.client.kwargs["api_base"] == Get(merged, "base_url", Null)
              && forall k :: k in merged && k != "base_url" && k != "api_base" ==> r.client.kwargs[k] == merged[k]
    ensures r.Made? && r.client.OpenAiClient? ==> llmType != "reasoning" && r.client.kwargs == merged
    ensures r.Made? && !r.client.AzureClient? ==> (r.client.DeepSeekClient? <==> llmType == "reasoning")
  {
    var base := Get(merged, "base_url", Str(""));
    if !base.Str? then Rejected(BaseUrlNotText)
    else if Contains(base.text, "azure") then
      Made(AzureClient(Get(merged, "base_url", Null), Get(merged, "model", Null), Get(merged, "api_key", Null),
                       Get(merged, "api_version", Str("2024-12-01-preview")), Get(merged, "temperature", Real(1.0)),
                       Get(merged, "max_tokens", Int(4000))))
    else if llmType == "reasoning" then
      Made(DeepSeekClient((merged - {"base_url"})["api_base" := Get(merged, "base_url", Null)]))
    else Made(OpenAiClient(merged))
  }

  /** `_create_llm_use_conf`. */
  function CreateLlm(llmType: string, conf: Conf, env: seq<(string, string)>): (r: Created)
    ensures r == Rejected(UnknownType) <==> llmType !in TypeConfigKeys
    ensures r == Rejected(InvalidSection) <==> llmType in TypeConfigKeys && YamlSection(conf, TypeConfigKeys[llmType]).None?
    ensures r == Rejected(NoConfiguration) <==>
              llmType in TypeConfigKeys && YamlSection(conf, TypeConfigKeys[llmType]).Some?
              && YamlSection(conf, TypeConfigKeys[llmType]).value == map[]
              && EnvConf(EnvPrefix(llmType), env) == map[]
    ensures r.Made? ==>
              llmType in TypeConfigKeys && YamlSection(conf, TypeConfigKeys[llmType]).Some?
              && r == ClientFor(llmType, Merge(YamlSection(conf, TypeConfigKeys[llmType]).value,
                                               EnvConf(EnvPrefix(llmType), env)))
    ensures (llmType in TypeConfigKeys && YamlSection(conf, TypeConfigKeys[llmType]).Some?
             && Merge(YamlSection(conf, TypeConfigKeys[llmType]).value, EnvConf(EnvPrefix(llmType), env)) != map[])
            ==> r == ClientFor(llmType, Merge(YamlSection(conf, TypeConfigKeys[llmType]).value,
                                              EnvConf(EnvPrefix(llmType), env)))
  {
    if llmType !in TypeConfigKeys then Rejected(UnknownType)
    else
      var section := YamlSection(conf, TypeConfigKeys[llmType]);
      if section.None? then Rejected(InvalidSection)
      else
        var merged := Merge(section.value, EnvConf(EnvPrefix(llmType), env));
        if merged == map[] then
          Rejected(NoConfiguration)
        else
          assert merged.Keys != {};
          ClientFor(llmType, merged)
  }

  /** A variable of the environment beats the file: the client sees the environment's value. */
  lemma EnvironmentWins(llmType: string, conf: Conf, env: seq<(string, string)>, k: string)
    requires llmType in TypeConfigKeys && YamlSection(conf, TypeConfigKeys[llmType]).Some?
    requires k in EnvConf(EnvPrefix(llmType), env)
    ensures var merged := Merge(YamlSection(conf, TypeConfigKeys[llmType]).value, EnvConf(EnvPrefix(llmType), env));
            merged[k] == EnvConf(EnvPrefix(llmType), env)[k] && merged[k].Str?
  {
  }

  // ---------------------------------------------------------------------
  // get_llm_by_type
  // ---------------------------------------------------------------------

  /** The module-wide cache of clients, with a count of configuration loads. */
  class LlmCache {
    var cache: map<string, Client>
    var loads: nat

    constructor()
      ensures cache == map[] && loads == 0
    {
      cache := map[];
      loads := 0;
    }

    /** Only the known model types are ever cached. */
    predicate Valid()
      reads this
    {
      forall t :: t in cache ==> t in TypeConfigKeys
    }

    /**
     * `get_llm_by_type`: a cached type is answered without loading the
     * configuration; otherwise the configuration is loaded and, when a
     * client is made, it is cached. `conf` is what loading the file gives.
     */
    method GetLlmByType(llmType: string, conf: Conf, env: seq<(string, string)>) returns (r: Created)
      requires Valid()
      modifies this
      ensures Valid()
      ensures llmType in old(cache) ==> r == Made(old(cache)[llmType]) && cache == old(cache) && loads == old(loads)
      ensures llmType !in old(cache) ==>
                r == CreateLlm(llmType, conf, env) && loads == old(loads) + 1
                && cache == (if r.Made? then old(cache)[llmType := r.client] else old(cache))
    {
      if llmType in cache {
        return Made(cache[llmType]);
      }
      loads := loads + 1;
      r := CreateLlm(llmType, conf, env);
      if r.Made? {
        cache := cache[llmType := r.client];
      }
    }
  }

  /** Two requests for the same type get the same client, the configuration loaded at most once. */
  method SecondRequestIsCached(c: LlmCache, llmType: string, conf: Conf, conf2: Conf, env: seq<(string, string)>)
    returns (first: Created, second: Created)
    requires c.Valid()
    modifies c
    ensures first.Made? ==> second == first && c.loads <= old(c.loads) + 1
  {
    first := c.GetLlmByType(llmType, conf, env);
    second := c.GetLlmByType(llmType, conf2, env);
  }

  // ---------------------------------------------------------------------
  // get_configured_llm_models
  // ---------------------------------------------------------------------

  /** The YAML section read for a type: none when the type has no key. */
  function TypeSection(conf: Conf, llmType: string): Option<map<string, Value>>
  {
    if llmType in TypeConfigKeys then YamlSection(conf, TypeConfigKeys[llmType]) else Some(map[])
  }

  /** Spreading a section that is not a mapping raises, and the whole listing gives {}. */
  predicate ListingFails(conf: Conf, llmTypes: seq<string>)
  {
    exists i :: 0 <= i < |llmTypes| && TypeSection(conf, llmTypes[i]).None?
  }

  /** The model a type's merged configuration names, Null when none. */
  function ModelOf(conf: Conf, env: seq<(string, string)>, llmType: string): Value
    requires TypeSection(conf, llmType).Some?
  {
    Get(Merge(TypeSection(conf, llmType).value, EnvConf(EnvPrefix(llmType), env)), "model", Null)
  }

  function Listed(conf: Conf, env: seq<(string, string)>, llmTypes: seq<string>): map<string, seq<Value>>
    requires !ListingFails(conf, llmTypes)
  {
    if llmTypes == [] then map[]
    else
      var init := llmTypes[..|llmTypes| - 1];
      var t := llmTypes[|llmTypes| - 1];
      ListingPrefix(conf, llmTypes, |llmTypes| - 1);
      assert TypeSection(conf, llmTypes[|llmTypes| - 1]).Some?;
      var m := Listed(conf, env, init);
      var name := ModelOf(conf, env, t);
      if IsTruthy(name) then m[t := (if t in m then m[t] else []) + [name]] else m
  }

  lemma ListingPrefix(conf: Conf, llmTypes: seq<string>, n: nat)
    requires !ListingFails(conf, llmTypes) && n <= |llmTypes|
    ensures !ListingFails(conf, llmTypes[..n])
  {
    forall i | 0 <= i < n
      ensures TypeSection(conf, llmTypes[..n][i]).Some?
    {
      assert llmTypes[..n][i] == llmTypes[i];
    }
  }

  /** A prefix that does not fail stays so when the next type has a section. */
  lemma ListingExtend(conf: Conf, llmTypes: seq<string>, i: nat)
    requires i < |llmTypes| && !ListingFails(conf, llmTypes[..i]) && TypeSection(conf, llmTypes[i]).Some?
    ensures !ListingFails(conf, llmTypes[..i + 1])
  {
    var prefix := llmTypes[..i + 1];
    forall j | 0 <= j < |prefix|
      ensures TypeSection(conf, prefix[j]).Some?
    {
      if j < i {
        assert prefix[j] == llmTypes[..i][j];
      }
    }
  }

  /** `get_configured_llm_models`; `conf` is None when loading the file raises. */
  function ConfiguredModels(conf: Option<Conf>, env: seq<(string, string)>, llmTypes: seq<string>)
    : map<string, seq<Value>>
  {
    if conf.None? || ListingFails(conf.value, llmTypes) then map[] else Listed(conf.value, env, llmTypes)
  }

  /**
   * Over distinct types, a type is listed exactly when its merged
   * configuration names a model, and then with that one model.
   */
  lemma {:induction false} ListedSpec(conf: Conf, env: seq<(string, string)>, llmTypes: seq<string>)
    requires !ListingFails(conf, llmTypes) && NoDuplicates(llmTypes)
    ensures forall t :: t in Listed(conf, env, llmTypes) <==>
              t in llmTypes && TypeSection(conf, t).Some? && IsTruthy(ModelOf(conf, env, t))
    ensures forall t :: t in Listed(conf, env, llmTypes) ==> Listed(conf, env, llmTypes)[t] == [ModelOf(conf, env, t)]
  {
    if llmTypes != [] {
      var init := llmTypes[..|llmTypes| - 1];
      var t := llmTypes[|llmTypes| - 1];
      ListingPrefix(conf, llmTypes, |llmTypes| - 1);
      NoDuplicatesInit(llmTypes);
      ListedSpec(conf, env, init);
      assert llmTypes[..|llmTypes|] == llmTypes;
      ListedStep(conf, env, llmTypes, |llmTypes| - 1);
      assert [] + [ModelOf(conf, env, t)] == [ModelOf(conf, env, t)];
    }
  }

  /** The last type's model, when set, is appended to that type's entry. */
  lemma ListedStep(conf: Conf, env: seq<(string, string)>, llmTypes: seq<string>, i: nat)
    requires i < |llmTypes| && !ListingFails(conf, llmTypes[..i + 1])
    ensures !ListingFails(conf, llmTypes[..i])
    ensures var m, t := Listed(conf, env, llmTypes[..i]), llmTypes[i];
            var name := ModelOf(conf, env, t);
            Listed(conf, env, llmTypes[..i + 1]) ==
              if IsTruthy(name) then m[t := (if t in m then m[t] else []) + [name]] else m
  {
    var prefix := llmTypes[..i + 1];
    assert prefix[..|prefix| - 1] == llmTypes[..i];
    assert prefix[|prefix| - 1] == llmTypes[i];
    ListingPrefix(conf, prefix, i);
  }

  /** A failed load, or a section that is not a mapping, lists nothing at all. */
  lemma ListingFailureIsEmpty(conf: Option<Conf>, env: seq<(string, string)>, llmTypes: seq<string>)
    requires conf.None? || ListingFails(conf.value, llmTypes)
    ensures ConfiguredModels(conf, env, llmTypes) == map[]
  {
  }

  /** The loop of `get_configured_llm_models`. */
  method GetConfiguredLlmModels(conf: Option<Conf>, env: seq<(string, string)>, llmTypes: seq<string>)
    returns (models: map<string, seq<Value>>)
    ensures models == ConfiguredModels(conf, env, llmTypes)
  {
    if conf.None? {
      return map[];
    }
    models := map[];
    var i := 0;
    while i < |llmTypes|
      invariant 0 <= i <= |llmTypes|
      invariant !ListingFails(conf.value, llmTypes[..i])
      invariant models == Listed(conf.value, env, llmTypes[..i])
    {
      var t := llmTypes[i];
      var section := TypeSection(conf.value, t);
      if section.None? {
        assert ListingFails(conf.value, llmTypes) by {
          assert llmTypes[i] == t;
        }
        return map[];
      }
      ListingExtend(conf.value, llmTypes, i);
      ListedStep(conf.value, env, llmTypes, i);
      var envConf := GetEnvLlmConf(t, env);
      var merged := Merge(section.value, envConf);
      var name := Get(merged, "model", Null);
      if IsTruthy(name) {
        models := models[t := (if t in models then models[t] else []) + [name]];
      }
      i := i + 1;
    }
    assert llmTypes[..i] == llmTypes;
  }
}
