# easy-search registry, modelled in Dafny

This project models the core of meteor-easy-search (`lib/easy-search-common.js`). The core is a
registry and dispatcher with two tables:

- `indexes` maps an index name to its configuration object.
- `Searchers` maps a searcher type (a backend kind such as `minimongo`) to the methods object that
  was registered for it.

The four operations work on these tables:

- `createSearchIndex` normalises the caller's `field` to an array. It stores a copy of the defaults
  extended by the options. If the options' own `use` names a registered searcher, it calls that
  searcher's `createSearchIndex` hook.
- `search` fails on an undeclared index, a bad callback or an unknown searcher type. Otherwise it
  asks the stored `permission` function. A refusal returns `{results: [], total: 0}`. If permission
  is granted, it extends the *stored* configuration in place with the call options and hands it to
  the searcher's `search`.
- `createSearcher` checks that the four members are functions and registers the methods object.
- The getters read either table. `config` is a placeholder.

Files:

- `values.dfy` (module `JsValues`): JavaScript values (`Value`), objects as `map<string, Value>`
  (`Config`), property reads (`Get`), and Underscore's `_.extend` as right-biased map union
  (`Extend`).
- `easy_search_spec.dfy` (module `EasySearchSpec`): the defaults, field normalisation, the
  permission call and searcher validation. Each operation is also written as a step on a
  `State` value, a run of steps as `Run`, and the lemmas state what the source promises.
- `registry.dfy` (module `EasySearch`): the class `Registry`, whose fields are the two tables and
  a ghost log `calls` of every backend invocation. Its methods change the tables in place. Each
  one is proved to perform the corresponding step, and to keep the invariant `Valid()`. The
  client methods at the end run the registry through small scenarios: field normalisation, a
  refused search, an unknown searcher type, an incomplete searcher, and a search that revokes
  later ones.

Details of the code a reader might not expect:

- The normalised key is `field` (line 57).
- The creation hook is looked up through the caller's `options.use` only (line 60). An index
  that relies on the default `minimongo` gets no hook call.
- `search` reads `indexes[name].use` first (line 71), so an undeclared index name fails there
  with a TypeError. The model returns that error; it is not a precondition.
- After that read, `search` checks the callback (line 76), then the searcher type (lines 78-80),
  and evaluates the permission last (line 83).
- The call options of a granted search are merged into the stored configuration and stay there
  (line 86). They are not a per-call snapshot. Permission is checked on the configuration as it
  was before that merge.

## Model

| member | source | states |
|---|---|---|
| JsValues.Extend | lib/easy-search-common.js:58 | the merged object has the keys of both; a key of the source takes the source's value, every other key keeps the target's |
| JsValues.ExtendAssociative | lib/easy-search-common.js:86 | defaults, then creation options, then call options give the same object as defaults extended by the two overlays combined: later layers win |
| JsValues.ExtendIdempotent | lib/easy-search-common.js:86 | extending a second time by the same options changes nothing |
| EasySearchSpec.NormalizeField | lib/easy-search-common.js:57 | the options afterwards differ only in `field`: an array stays as it is, any other value (absent too) becomes a one-element array of it |
| EasySearchSpec.CreationHook | lib/easy-search-common.js:60 | at most one hook call; there is one exactly when the options' `use` names a registered searcher, and it is that searcher's hook called with the name and the normalised options |
| EasySearchSpec.Permission | lib/easy-search-common.js:83 | calling the permission fails with a TypeError exactly when it is not a function; the default answers true; a caller's function answers what it computes on the search string |
| EasySearchSpec.FirstNonFunction | lib/easy-search-common.js:135-138 | no member is reported exactly when all listed members are functions; otherwise the one reported is the first member that is missing or not a function |
| EasySearchSpec.SearcherCheckOrder | lib/easy-search-common.js:135-138 | the members are checked in the order search, createSearchIndex, defaultQuery, defaultSort, and the first failure is the one reported |
| EasySearchSpec.CreateIndexStores | lib/easy-search-common.js:58 | createSearchIndex stores the defaults extended by the normalised options under the name, replacing any earlier entry; it changes no other index and no searcher, and it does not fail |
| EasySearchSpec.IndexConfigLayers | lib/easy-search-common.js:58 | the stored configuration has the default keys, `field` and the option keys; an option wins over a default; an absent option leaves the default; `field` is the normalised one |
| EasySearchSpec.IndexConfigDefaults | lib/easy-search-common.js:6-15 | absent options give `format` 'mongo', `limit` 10, `use` 'minimongo', and a permission that answers true for every search string |
| EasySearchSpec.FieldNormalized | lib/easy-search-common.js:57 | the stored `field` is the caller's array if it gave one, else its single value wrapped in an array; no `field` at all is stored as `[undefined]` |
| EasySearchSpec.CreateIndexHook | lib/easy-search-common.js:60 | the hook is called once with the normalised options when the options' own `use` is registered, and not at all otherwise; the index is stored and nothing fails either way |
| EasySearchSpec.RecreateForgets | lib/easy-search-common.js:58 | after two createSearchIndex calls on one name, the stored configuration is that of the second options alone; keys only the first call had are gone |
| EasySearchSpec.SearchBadCallback | lib/easy-search-common.js:71-76 | a callback that is neither absent nor a function fails the Match check, with nothing changed and no backend call |
| EasySearchSpec.SearchUnknownBackend | lib/easy-search-common.js:78-80 | an index whose `use` names no registered searcher fails with error 500 naming that type, before permission is asked, with no state change and no backend call |
| EasySearchSpec.SearchDenied | lib/easy-search-common.js:83-84 | a refusing permission check returns `{results: [], total: 0}`, calls no backend and leaves both tables unchanged |
| EasySearchSpec.SearchGranted | lib/easy-search-common.js:86 | a granted search stores the old configuration extended by the call options, calls the searcher's search once with the name, the search string, that merged configuration and the callback, and returns the backend's answer unchanged |
| EasySearchSpec.SearchRepeated | lib/easy-search-common.js:78-86 | repeating a search with the same arguments leaves both tables as the first call left them, whether that call was granted, refused or failed |
| EasySearchSpec.SearchRevokesLaterSearches | lib/easy-search-common.js:83-86 | a granted search whose options carry a refusing permission function makes the next search on that index return the empty result without a backend call |
| EasySearchSpec.CreateThenSearchLayers | lib/easy-search-common.js:53-88 | after createSearchIndex followed by a granted search, the stored configuration is the defaults extended by the normalised creation options overlaid by the call options; key by key it comes from the call options, else the creation options, else the defaults |
| EasySearchSpec.CreateSearcherChecks | lib/easy-search-common.js:133-140 | createSearcher succeeds exactly when the four members are functions, and then maps the type to the methods object, overwriting and changing nothing else; on failure it names a missing or non-function member and changes nothing |
| EasySearchSpec.FailuresChangeNothing | lib/easy-search-common.js:53-141 | every failing operation leaves both tables unchanged and calls no backend |
| EasySearchSpec.StepSearchers | lib/easy-search-common.js:60-86 | no operation unregisters a searcher; every backend call goes to a registered searcher; in a well-formed state, the member called (`search` or `createSearchIndex`) is a function |
| EasySearchSpec.StepPreservesWellFormed | lib/easy-search-common.js:53-141 | every operation keeps the invariant: stored configurations have the default keys and `field`, and registered searchers have their four functions |
| EasySearchSpec.RunKeepsSearchers | lib/easy-search-common.js:140 | over any sequence of operations, a registered searcher type stays registered |
| EasySearchSpec.RunCallsRegisteredSearchers | lib/easy-search-common.js:60-86 | over any sequence of operations, every backend call goes to a searcher type registered at the end |
| EasySearchSpec.RunPreservesWellFormed | lib/easy-search-common.js:53-141 | the invariant holds after any sequence of operations that starts from it |
| EasySearchSpec.RunStoresLastSearched | lib/easy-search-common.js:86 | over any run that does not recreate an index, that index's stored configuration at the end is exactly what the backend was last handed for it, or the starting one if no search reached the backend |
| EasySearch.Registry.constructor | lib/easy-search-common.js:4-36 | both tables start empty, no backend has been called, and the invariant holds |
| EasySearch.Registry.Configure | lib/easy-search-common.js:44-46 | returns an empty object whatever it is given, and changes no state |
| EasySearch.Registry.CreateSearchIndex | lib/easy-search-common.js:53-61 | returns the caller's options with `field` normalised; stores the defaults extended by them under the name; searchers unchanged; logs the creation hook call; getIndex then returns the stored configuration; keeps the invariant |
| EasySearch.Registry.Search | lib/easy-search-common.js:70-88 | performs the search step: new tables, logged backend calls and the result are exactly those of the step, whose outcomes the search lemmas above state; searchers unchanged; keeps the invariant |
| EasySearch.Registry.CreateSearcher | lib/easy-search-common.js:133-141 | performs the createSearcher step; indexes and the log unchanged; on success getSearcher returns the methods object; keeps the invariant |
| EasySearch.Registry.GetIndex | lib/easy-search-common.js:96-98 | the stored configuration of a declared index, nothing (undefined) for an undeclared one |
| EasySearch.Registry.GetIndexes | lib/easy-search-common.js:102-104 | the whole index table, agreeing with getIndex on every name |
| EasySearch.Registry.GetSearcher | lib/easy-search-common.js:112-114 | the methods object registered for a type, nothing (undefined) for an unregistered one |
| EasySearch.Registry.GetSearchers | lib/easy-search-common.js:118-120 | the whole searcher table, agreeing with getSearcher on every type |
| EasySearch.FieldNormalizationScenario | lib/easy-search-common.js:57 | `field: 'x'` is stored as `['x']` and `field: ['x', 'y']` as `['x', 'y']` |
| EasySearch.DeniedSearchScenario | lib/easy-search-common.js:83-84 | with a permission function that always refuses, search returns `{results: [], total: 0}` and the backend's search is not called |
| EasySearch.UnknownBackendScenario | lib/easy-search-common.js:78-80 | an index created with `use: 'nonexistent'` fails to search with error 500 naming 'nonexistent' |
| EasySearch.IncompleteSearcherScenario | lib/easy-search-common.js:133-140 | a searcher with only search and createSearchIndex is refused at defaultQuery and is not registered |
| EasySearch.RevokingSearchScenario | lib/easy-search-common.js:83-86 | a search that passes a refusing permission in its options still reaches the backend, and the next search on that index is refused |

## Left out

- The concrete backends (minimongo, elastic-search, mongo-db) are foreign code. Their calls are recorded in the ghost log `calls`. The value a backend's `search` returns is the `reply` parameter, passed back unchanged. What the hooks do inside the backend is not modelled. The model assumes a backend does not call back into the registry.
- Caller-supplied permission functions are foreign code too. The `grant` parameter says what each one answers for a search string. Side effects and the `this` they see are not modelled.
- The default `sort` and `query` functions (lines 10-12, 23-25) are tags (`DefaultSort`, `DefaultQuery`). Evaluating them means calling the backend's `defaultSort` or `defaultQuery`, and the registry itself never does that.
- Permission: if a backend default `sort` or `query` function sits in the permission slot, the model answers true. This is because the backend returns an object there, which JavaScript reads as true. That backend call is not logged.
- The optional callback and asynchronous delivery belong to the backend. The callback is passed through as an opaque value.
- The `check(..., String)` and `check(..., Object)` assertions on `name`, `searchString`, `options` and `key` are not modelled. The model's types exclude the inputs they reject, such as a missing `options` argument.
- A `use` that is not a string is treated as naming no searcher. JavaScript would turn it into a property key instead, for example `undefined` becomes `'undefined'`.
- Configurations are values. The aliasing of JavaScript objects is not modelled: a caller still holding the options object, or an object returned by getIndex, does not see later mutations. The normalised options are returned to the caller instead.
- The message text of `Meteor.Error` is represented by the searcher type it names. The text is not built as a string.
- Numbers are integers. Prototype-inherited properties of options objects are ignored.
- Index names and searcher types that are names of `Object.prototype` members (such as `constructor` or `toString`) are not modelled. Both tables are plain JavaScript objects, so those names read inherited values there. The model treats them as absent. For example, `getIndex('constructor')` returns `Object` in JavaScript but nothing in the model. A `use: 'toString'` finds a truthy searcher, makes the creation hook call throw, and lets a granted search merge its options before it throws. For such names `FailuresChangeNothing` does not describe the source.
