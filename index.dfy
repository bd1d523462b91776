/** The shared configuration: the provider layers, the file-scope normaliser
    applied to the two type-aware groups, the TypeScript import layer, and the
    project layers, in the fixed order in which the linter reads them. */
module Index {
  import opened Wrappers
  import opened Layers
  import Compose

  /** The layers supplied by the plugins and presets the configuration builds on.
      Their contents are not visible here; the same object may occur more than
      once (the two type-aware groups share layers). */
  datatype Providers = Providers(
    eslintRecommended: Layer,
    stylisticTypeChecked: seq<Layer>,
    strictTypeChecked: seq<Layer>,
    importRecommended: Layer,
    importTypescript: Layer,
    sonarjsRecommended: Layer,
    prettierRecommended: Layer)

  /** The file-scope normaliser: gives an unscoped layer the default globs, in
      place, and hands back the very object it was given. */
  method AddFiles(config: Layer) returns (r: Layer)
    modifies config
    ensures r == config
    ensures config.files == Normalized(old(config.files))
    ensures Truthy(old(config.files)) ==> config.files == old(config.files)
    ensures !Truthy(old(config.files)) ==> config.files == Some(DefaultFiles)
    ensures config.body == old(config.body)
  {
    if !Truthy(config.files) {
      config.files := Some(DefaultFiles);
    }
    r := config;
  }

  /** `layers.map(addFiles)`: a new array holding the same objects in the same
      order, each of them now normalised. A layer listed twice is normalised
      once; the second visit finds it scoped and leaves it alone. */
  method MapAddFiles(layers: seq<Layer>) returns (mapped: seq<Layer>)
    modifies layers
    ensures mapped == layers
    ensures forall l :: l in layers ==> l.files == Normalized(old(l.files)) && l.body == old(l.body)
    ensures forall k :: 0 <= k < |mapped| ==> Truthy(mapped[k].files)
  {
    mapped := [];
    var i := 0;
    while i < |layers|
      invariant 0 <= i <= |layers|
      invariant mapped == layers[..i]
      invariant forall l :: l in layers[..i] ==> l.files == Normalized(old(l.files))
      invariant forall l :: l in layers && l !in layers[..i] ==> l.files == old(l.files)
      invariant forall l :: l in layers ==> l.body == old(l.body)
    {
      var l := layers[i];
      NormalizedIdempotent(old(l.files));
      var r := AddFiles(l);
      assert layers[..i + 1] == layers[..i] + [l];
      mapped := mapped + [r];
      i := i + 1;
    }
    assert layers[..i] == layers;
    forall k | 0 <= k < |mapped|
      ensures Truthy(mapped[k].files)
    {
      NormalizedScopes(old(mapped[k].files));
    }
  }

  /** The TypeScript import layer: the plugin's own layer when it is already
      scoped, otherwise a shallow copy of it scoped to the default globs (the
      plugin's layer itself is left as it was). */
  method ImportTs(plugin: Layer) returns (r: Layer)
    ensures Truthy(plugin.files) ==> r == plugin
    ensures !Truthy(plugin.files) ==> fresh(r)
    ensures r.files == Normalized(plugin.files) && r.body == plugin.body
  {
    if Truthy(plugin.files) {
      r := plugin;
    } else {
      r := new Layer(Some(DefaultFiles), plugin.body);
    }
  }

  /** The keys of the project layer other than `files`: the unused-directive
      report, the TypeScript parser with the project service, the promise
      plugin and the project's rule table (taken as given). */
  function ProjectBody(parser: Value, promisePlugin: Value, rules: map<string, Value>): Body
  {
    map[
      "linterOptions" := Obj(map["reportUnusedDisableDirectives" := Str("warn")]),
      "languageOptions" := Obj(map[
        "parser" := parser,
        "parserOptions" := Obj(map[
          "projectService" := Bool(true),
          "tsconfigRootDir" := Str("./tsconfig.json")])]),
      "plugins" := Obj(map["promise" := promisePlugin]),
      "rules" := Obj(rules)]
  }

  /** The keys of the trailing layer: the import resolver settings. */
  function SettingsBody(): Body
  {
    map["settings" := Obj(map["import/resolver" := Obj(map["typescript" := Bool(true), "node" := Bool(true)])])]
  }

  /** The exported array, as written: every piece spread in its place. */
  function Configs(
    recommended: Layer, stylistic: seq<Layer>, strict: seq<Layer>, importRecommended: Layer,
    importTs: Layer, sonarjs: Layer, prettier: Layer, project: Layer, settings: Layer): seq<Layer>
  {
    [recommended] + stylistic + strict
    + [importRecommended, importTs, sonarjs, prettier, project, settings]
  }

  /** The same array seen as a list of groups, each provider contributing one group. */
  function Groups(
    recommended: Layer, stylistic: seq<Layer>, strict: seq<Layer>, importRecommended: Layer,
    importTs: Layer, sonarjs: Layer, prettier: Layer, project: Layer, settings: Layer): seq<seq<Layer>>
  {
    [[recommended], stylistic, strict, [importRecommended], [importTs], [sonarjs], [prettier], [project], [settings]]
  }

  /** The array literal is the composition of the provider groups in declaration order. */
  lemma ConfigsIsFlatten(
    recommended: Layer, stylistic: seq<Layer>, strict: seq<Layer>, importRecommended: Layer,
    importTs: Layer, sonarjs: Layer, prettier: Layer, project: Layer, settings: Layer)
    ensures Configs(recommended, stylistic, strict, importRecommended, importTs, sonarjs, prettier, project, settings)
         == Compose.Flatten(Groups(recommended, stylistic, strict, importRecommended, importTs, sonarjs, prettier, project, settings))
  {
    var tail := [[importRecommended], [importTs], [sonarjs], [prettier], [project], [settings]];
    var gs := Groups(recommended, stylistic, strict, importRecommended, importTs, sonarjs, prettier, project, settings);
    assert gs == [[recommended], stylistic, strict] + tail;
    Compose.FlattenAppend([[recommended], stylistic, strict], tail);
    assert [[recommended], stylistic, strict] == [[recommended]] + [stylistic] + [strict];
    Compose.FlattenAppend([[recommended]] + [stylistic], [strict]);
    Compose.FlattenAppend([[recommended]], [stylistic]);
    Compose.FlattenCons([recommended], []);
    Compose.FlattenCons(stylistic, []);
    Compose.FlattenCons(strict, []);
    assert tail == [[importRecommended]] + [[importTs]] + [[sonarjs]] + [[prettier]] + [[project]] + [[settings]];
    Compose.FlattenAppend([[importRecommended]] + [[importTs]] + [[sonarjs]] + [[prettier]] + [[project]], [[settings]]);
    Compose.FlattenAppend([[importRecommended]] + [[importTs]] + [[sonarjs]] + [[prettier]], [[project]]);
    Compose.FlattenAppend([[importRecommended]] + [[importTs]] + [[sonarjs]], [[prettier]]);
    Compose.FlattenAppend([[importRecommended]] + [[importTs]], [[sonarjs]]);
    Compose.FlattenAppend([[importRecommended]], [[importTs]]);
    Compose.FlattenCons([importRecommended], []);
    Compose.FlattenCons([importTs], []);
    Compose.FlattenCons([sonarjs], []);
    Compose.FlattenCons([prettier], []);
    Compose.FlattenCons([project], []);
    Compose.FlattenCons([settings], []);
  }

  /** Where each piece sits in the exported array, and how long it is. */
  lemma ConfigsLayout(
    recommended: Layer, stylistic: seq<Layer>, strict: seq<Layer>, importRecommended: Layer,
    importTs: Layer, sonarjs: Layer, prettier: Layer, project: Layer, settings: Layer)
    ensures var c := Configs(recommended, stylistic, strict, importRecommended, importTs, sonarjs, prettier, project, settings);
      && |c| == |stylistic| + |strict| + 7
      && c[0] == recommended
      && c[1..1 + |stylistic|] == stylistic
      && c[1 + |stylistic|..1 + |stylistic| + |strict|] == strict
      && c[|c| - 6..] == [importRecommended, importTs, sonarjs, prettier, project, settings]
  {
  }

  /** Composing the provider groups keeps every layer: the sum of the group
      lengths is the length of the exported array. */
  lemma GroupsLength(
    recommended: Layer, stylistic: seq<Layer>, strict: seq<Layer>, importRecommended: Layer,
    importTs: Layer, sonarjs: Layer, prettier: Layer, project: Layer, settings: Layer)
    ensures Compose.TotalLength(Groups(recommended, stylistic, strict, importRecommended, importTs, sonarjs, prettier, project, settings))
         == |stylistic| + |strict| + 7
  {
    var gs := Groups(recommended, stylistic, strict, importRecommended, importTs, sonarjs, prettier, project, settings);
    ConfigsIsFlatten(recommended, stylistic, strict, importRecommended, importTs, sonarjs, prettier, project, settings);
    Compose.FlattenLength(gs);
  }

  /** The same layout read off the group view: the offsets at which the
      composition places the stylistic and strict groups, and the groups
      themselves found whole at those offsets. */
  lemma GroupsLayout(
    recommended: Layer, stylistic: seq<Layer>, strict: seq<Layer>, importRecommended: Layer,
    importTs: Layer, sonarjs: Layer, prettier: Layer, project: Layer, settings: Layer)
    ensures var gs := Groups(recommended, stylistic, strict, importRecommended, importTs, sonarjs, prettier, project, settings);
      && Compose.Offset(gs, 1) == 1
      && Compose.Offset(gs, 2) == 1 + |stylistic|
      && Compose.Offset(gs, 3) == 1 + |stylistic| + |strict|
      && 1 + |stylistic| + |strict| <= |Compose.Flatten(gs)|
      && Compose.Flatten(gs)[1..1 + |stylistic|] == stylistic
      && Compose.Flatten(gs)[1 + |stylistic|..1 + |stylistic| + |strict|] == strict
  {
    var gs := Groups(recommended, stylistic, strict, importRecommended, importTs, sonarjs, prettier, project, settings);
    assert gs[..0] == [];
    Compose.OffsetNext(gs, 0);
    Compose.OffsetNext(gs, 1);
    Compose.OffsetNext(gs, 2);
    Compose.FlattenGroup(gs, 1);
    Compose.FlattenGroup(gs, 2);
  }

  /** The whole of the configuration module: normalise both type-aware groups
      in place, pick or build the TypeScript import layer, build the project
      and settings layers, and lay everything out in order. */
  method BuildConfigs(p: Providers, parser: Value, promisePlugin: Value, projectRules: map<string, Value>)
    returns (configs: seq<Layer>, importTs: Layer, project: Layer, settings: Layer)
    modifies p.stylisticTypeChecked, p.strictTypeChecked
    ensures configs == Configs(p.eslintRecommended, p.stylisticTypeChecked, p.strictTypeChecked,
                               p.importRecommended, importTs, p.sonarjsRecommended, p.prettierRecommended,
                               project, settings)
    ensures |configs| == |p.stylisticTypeChecked| + |p.strictTypeChecked| + 7
    ensures forall l :: l in p.stylisticTypeChecked + p.strictTypeChecked ==>
              l.files == Normalized(old(l.files)) && l.body == old(l.body)
    ensures forall k :: 1 <= k < 1 + |p.stylisticTypeChecked| + |p.strictTypeChecked| ==> Truthy(configs[k].files)
    ensures Truthy(p.importTypescript.files) ==> importTs == p.importTypescript
    ensures !Truthy(p.importTypescript.files) ==> fresh(importTs)
    ensures importTs.files == Normalized(p.importTypescript.files) && importTs.body == p.importTypescript.body
    ensures fresh(project) && project.files == Some(DefaultFiles)
    ensures project.body == ProjectBody(parser, promisePlugin, projectRules)
    ensures fresh(settings) && settings.files == None && settings.body == SettingsBody()
  {
    var stylistic := MapAddFiles(p.stylisticTypeChecked);
    var strict := MapAddFiles(p.strictTypeChecked);
    forall l | l in p.stylisticTypeChecked + p.strictTypeChecked
      ensures l.files == Normalized(old(l.files))
    {
      NormalizedIdempotent(old(l.files));
    }
    importTs := ImportTs(p.importTypescript);
    project := new Layer(Some(DefaultFiles), ProjectBody(parser, promisePlugin, projectRules));
    settings := new Layer(None, SettingsBody());
    configs := [p.eslintRecommended] + stylistic + strict
      + [p.importRecommended, importTs, p.sonarjsRecommended, p.prettierRecommended, project, settings];
    ConfigsLayout(p.eslintRecommended, stylistic, strict, p.importRecommended, importTs,
                  p.sonarjsRecommended, p.prettierRecommended, project, settings);
    forall k | 1 <= k < 1 + |stylistic| + |strict|
      ensures Truthy(configs[k].files)
    {
      assert configs[k] in stylistic + strict;
      NormalizedScopes(old(configs[k].files));
    }
  }
}
