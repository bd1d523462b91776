/** The repository's own configuration: the shared configuration followed by
    one layer that declares the Node.js global identifiers. */
module EslintConfig {
  import opened Wrappers
  import opened Layers
  import Index

  /** The keys of the environment layer: a globals object holding exactly the
      entries of the Node.js catalogue (supplied from outside). */
  function EnvironmentBody(nodeGlobals: map<string, Value>): (b: Body)
    ensures b.Keys == {"languageOptions"}
    ensures b["languageOptions"].Obj? && b["languageOptions"].fields.Keys == {"globals"}
    ensures b["languageOptions"].fields["globals"] == Obj(nodeGlobals)
  {
    map["languageOptions" := Obj(map["globals" := Obj(nodeGlobals)])]
  }

  /** The exported array: the shared layers, same objects in the same order,
      then the environment layer last. */
  function Exported(config: seq<Layer>, env: Layer): (r: seq<Layer>)
    ensures |r| == |config| + 1
    ensures r[..|config|] == config
    ensures r[|config|] == env
  {
    config + [env]
  }

  /** Builds the environment layer and appends it. The new layer has no
      `files` key, so it applies to every file. */
  method Export(config: seq<Layer>, nodeGlobals: map<string, Value>) returns (out: seq<Layer>, env: Layer)
    ensures fresh(env) && env !in config
    ensures out == Exported(config, env)
    ensures env.files == None && env.body == EnvironmentBody(nodeGlobals)
  {
    env := new Layer(None, EnvironmentBody(nodeGlobals));
    out := config + [env];
  }

  /** The configuration file end to end: the shared configuration is built
      from the providers and the environment layer is appended. */
  method Load(p: Index.Providers, parser: Value, promisePlugin: Value, projectRules: map<string, Value>,
              nodeGlobals: map<string, Value>)
    returns (out: seq<Layer>)
    modifies p.stylisticTypeChecked, p.strictTypeChecked
    ensures |out| == |p.stylisticTypeChecked| + |p.strictTypeChecked| + 8
    ensures out[0] == p.eslintRecommended
    ensures out[1..1 + |p.stylisticTypeChecked|] == p.stylisticTypeChecked
    ensures out[1 + |p.stylisticTypeChecked|..1 + |p.stylisticTypeChecked| + |p.strictTypeChecked|] == p.strictTypeChecked
    ensures out[|out| - 7] == p.importRecommended
    ensures Truthy(p.importTypescript.files) ==> out[|out| - 6] == p.importTypescript
    ensures !Truthy(p.importTypescript.files) ==> fresh(out[|out| - 6])
    ensures out[|out| - 6].files == Normalized(p.importTypescript.files) && out[|out| - 6].body == p.importTypescript.body
    ensures out[|out| - 5] == p.sonarjsRecommended && out[|out| - 4] == p.prettierRecommended
    ensures forall l :: l in p.stylisticTypeChecked + p.strictTypeChecked ==>
              l.files == Normalized(old(l.files)) && l.body == old(l.body)
    ensures out[|out| - 2].files == None && out[|out| - 2].body == Index.SettingsBody()
    ensures out[|out| - 3].files == Some(DefaultFiles)
    ensures out[|out| - 3].body == Index.ProjectBody(parser, promisePlugin, projectRules)
    ensures forall k :: 1 <= k < 1 + |p.stylisticTypeChecked| + |p.strictTypeChecked| ==> Truthy(out[k].files)
    ensures out[|out| - 1].files == None && out[|out| - 1].body == EnvironmentBody(nodeGlobals)
  {
    var config, importTs, project, settings := Index.BuildConfigs(p, parser, promisePlugin, projectRules);
    Index.ConfigsLayout(p.eslintRecommended, p.stylisticTypeChecked, p.strictTypeChecked, p.importRecommended,
                        importTs, p.sonarjsRecommended, p.prettierRecommended, project, settings);
    var env;
    out, env := Export(config, nodeGlobals);
    assert forall k :: 0 <= k < |config| ==> out[k] == config[k];
  }
}
