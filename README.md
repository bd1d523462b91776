# Layered ESLint configuration for TypeScript projects: a Dafny model

This package exports a flat ESLint configuration. It is an ordered array of
configuration layers that ESLint reads front to back. Apart from the rule
tables, which are plain data, its logic is a small composition step:

- `index.mjs` takes the provider layers in this order: ESLint's recommended
  set, the stylistic and strict type-checked groups of typescript-eslint, the
  import plugin's recommended and TypeScript layers, the sonarjs recommended set
  and the prettier integration.
- It gives every layer of the two typescript-eslint groups a `files` scope with
  the `addFiles` normaliser. An unscoped layer gets the four TypeScript globs.
- It scopes the import plugin's TypeScript layer in the same way, but on a
  shallow copy.
- It appends one project layer scoped to those globs and one unscoped layer of
  resolver settings.
- `eslint.config.mjs` puts that array first and appends one unscoped layer that
  declares the Node.js globals.

The model has five modules, one per file:

- `Wrappers` (`wrappers.dfy`): the `Option` type.
- `Layers` (`layers.dfy`): the data model. `Layer` is a class, because the
  source updates layers in place. Its field `files` is `None` when the key is
  absent or falsy and `Some(globs)` when it holds an array. Its field `body`
  holds every other key as a JSON-like `Value`. This module also defines the
  `Normalized` function, which gives the `files` value a layer has after
  `addFiles`.
- `Compose` (`compose.dfy`): a general concatenation of layer groups, `Flatten`.
  It comes with its lemmas on length, order and membership.
- `Index` (`index.dfy`) models `index.mjs`:
  - `AddFiles` is a method that updates the layer in place and returns the same
    object.
  - `MapAddFiles` models `.map(addFiles)`.
  - `ImportTs` reuses the plugin's layer or makes a fresh copy.
  - `Configs` is the array literal.
  - `BuildConfigs` models the whole module.
- `EslintConfig` (`eslint_config.dfy`) models `eslint.config.mjs`.

`addFiles` assigns `config.files` on its argument and tests JavaScript
falsiness. The model follows that:

- The typescript-eslint layer objects are changed in place.
- An existing empty array counts as a scope and is kept.

Layers may be aliased. The same object can occur twice in a group, or in both
groups (the two typescript-eslint groups may share their base layers).
`MapAddFiles` and `BuildConfigs` are proved for that case. The second visit to a
layer finds it already scoped, and `NormalizedIdempotent` shows that this visit
changes nothing.

## Model

| member | source | states |
|---|---|---|
| Layers.NormalizedScopes | index.mjs:9-16 | after normalisation a layer always has a scope; an absent or falsy scope becomes exactly the four default globs; the value is kept exactly when it was already truthy, so an empty array is kept |
| Layers.NormalizedIdempotent | index.mjs:12-14 | normalising twice gives the same scope as normalising once |
| Layers.NormalizedMergesDefault | index.mjs:9-14 | after normalisation, an unscoped layer and one already scoped to the default globs cannot be told apart |
| Index.AddFiles | index.mjs:11-17 | returns the very object it was given; its `files` becomes the default globs when it was absent or falsy and is otherwise unchanged; no other key changes |
| Index.MapAddFiles | index.mjs:19-20 | the mapped array holds the same objects in the same order; every listed layer (each once, even if listed twice) ends up normalised with its other keys untouched; every element is scoped |
| Index.ImportTs | index.mjs:21-26 | a scoped plugin layer is reused as the same object; otherwise the result is a fresh layer with the plugin's other keys and the default globs, and the plugin layer is not modified |
| Index.ConfigsLayout | index.mjs:29-216 | the array is the recommended layer, the stylistic group, the strict group, then import recommended, importTs, sonarjs, prettier, the project layer and the settings layer; its length is the two group lengths plus 7 |
| Index.ConfigsIsFlatten | index.mjs:29-36 | the array literal equals the composition of the provider groups in declaration order |
| Index.GroupsLayout | index.mjs:29-32 | in the group view, the stylistic group starts at offset 1 and the strict group right after it, and each is found whole and in order at its offset |
| Index.GroupsLength | index.mjs:29-216 | composing the nine provider groups keeps every layer: their total length is the two group lengths plus 7 |
| Index.BuildConfigs | index.mjs:19-216 | the exported array is laid out as above; every layer of both type-aware groups is normalised in place and scoped; importTs is as for ImportTs; the project layer is fresh and scoped to the default globs, with its linter options, parser and plugin keys; the settings layer is fresh and has no `files` key |
| Compose.FlattenLength | index.mjs:29-36 | the composed sequence is as long as all groups together |
| Compose.FlattenAppend | index.mjs:29-36 | composing two lists of groups one after the other is the same as composing them separately and concatenating |
| Compose.FlattenGroup | index.mjs:29-36 | every group appears whole and in its own order, starting at its offset |
| Compose.OffsetNext | index.mjs:29-36 | each group starts right where the previous one ends, so groups keep their declared order |
| Compose.FlattenMembers | index.mjs:29-36 | a layer is in the composed sequence exactly when it is in one of the groups |
| EslintConfig.EnvironmentBody | eslint.config.mjs:7-13 | the appended layer has only `languageOptions`, which holds only `globals`, and `globals` is an object with exactly the entries of the Node.js catalogue |
| EslintConfig.Exported | eslint.config.mjs:5-14 | the exported array is one longer than the shared configuration; its first elements are the shared layers, same objects in the same order, and its last is the environment layer |
| EslintConfig.Export | eslint.config.mjs:5-14 | the appended layer is a new object that is not among the shared layers; it has no `files` key and it carries the Node.js globals |
| EslintConfig.Load | eslint.config.mjs:1-14 | end to end: the array is as long as the two type-aware groups plus 8; in order it holds the recommended layer, the stylistic group, the strict group, import recommended, importTs (the plugin's own layer when scoped, else a fresh scoped copy with its other keys), sonarjs, prettier, the project layer (scoped to the default globs, with its body), the unscoped settings layer and the unscoped environment layer; both groups are normalised in place and every layer in them is scoped |

## Left out

- `index.js`, the legacy-format configuration, is a separate hand-written object literal. It is not derived from `index.mjs` and its rule table differs from it. So there is no legacy adapter to model, and the model proves no equivalence between the layered and legacy forms.
- Resolving rules by last match, and matching globs against file names, are done by ESLint, not by this package. The model fixes the order of the layers, which is what that resolution depends on.
- The contents of the project rule table (`index.mjs:52-205`) are a parameter of the model (`projectRules`), treated as opaque data.
- The provider layers (typescript-eslint, the import, sonarjs and prettier plugins, ESLint's recommended set) and the `globals.node` catalogue are inputs whose contents are not visible. Plugin and parser objects are meant to be opaque `Ref` values, but `Index.ProjectBody` accepts any `Value` for the parser and the promise plugin. The model does not restrict their shape.
- Only the `files` key of a layer is modelled as a falsy/truthy value. A truthy `files` that is not an array (which ESLint itself would reject) is not represented. Any falsy value is represented as `None`.
- The `files` constant is one array object shared by every layer that receives it. The model treats it as a value, so sharing that array is not captured. Likewise, the shallow copy made for importTs shares its nested objects with the original, and `Value` does not record that sharing.
- Module loading, imports and exports are not modelled; the providers are passed in as parameters.
- No error path is modelled, because the code has no error handling or validation. A missing provider would simply throw in the JavaScript runtime.
