/** The data model of a flat-config layer: one object of the array that the
    linter's flat configuration loader reads, with its `files` scope kept apart
    from every other key. */
module Layers {
  import opened Wrappers

  /** A JSON-like value: what a layer holds under its keys other than `files`.
      Plugin objects, parsers and other host objects whose internals are not
      visible are opaque references, told apart only by a name. */
  datatype Value =
    | Null
    | Bool(b: bool)
    | Num(n: int)
    | Str(s: string)
    | Arr(items: seq<Value>)
    | Obj(fields: map<string, Value>)
    | Ref(name: string)

  /** The keys of a layer other than `files` (rules, languageOptions,
      linterOptions, plugins, settings, name, ...). */
  type Body = m: map<string, Value> | "files" !in m witness map[]

  /** The shared default scope: the TypeScript source extensions. */
  const DefaultFiles: seq<string> := ["**/*.ts", "**/*.tsx", "**/*.mts", "**/*.cts"]

  /** One configuration layer. `files` is None when the key is absent or holds
      a falsy value, and Some(globs) when it holds an array of glob patterns. */
  class Layer {
    var files: Option<seq<string>>
    var body: Body

    constructor (files: Option<seq<string>>, body: Body)
      ensures this.files == files && this.body == body
    {
      this.files := files;
      this.body := body;
    }
  }

  /** JavaScript truthiness of a layer's `files` value: every array is truthy,
      the empty array included; an absent or falsy value is not. */
  predicate Truthy(files: Option<seq<string>>)
  {
    files.Some?
  }

  /** The `files` value a layer holds after the file-scope normaliser. */
  function Normalized(files: Option<seq<string>>): Option<seq<string>>
  {
    if Truthy(files) then files else Some(DefaultFiles)
  }

  /** Normalising always leaves a scope; an unscoped layer gets exactly the
      default globs, and a scoped one (even with no globs at all) is kept. */
  lemma NormalizedScopes(files: Option<seq<string>>)
    ensures Truthy(Normalized(files))
    ensures !Truthy(files) ==> Normalized(files) == Some(DefaultFiles)
    ensures Normalized(files) == files <==> Truthy(files)
    ensures Normalized(Some([])) == Some([])
  {
  }

  /** A second normalisation changes nothing. */
  lemma NormalizedIdempotent(files: Option<seq<string>>)
    ensures Normalized(Normalized(files)) == Normalized(files)
  {
  }

  /** After normalisation a layer that had no scope and a layer that was
      already scoped to the default globs cannot be told apart. */
  lemma NormalizedMergesDefault()
    ensures Normalized(None) == Normalized(Some(DefaultFiles))
  {
  }
}
