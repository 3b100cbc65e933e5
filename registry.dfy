/** The `EasySearch` object: the index table and the searcher table, updated
    in place by createSearchIndex, search and createSearcher. Each method is
    proved to perform the corresponding step of EasySearchSpec, so the
    properties proved there hold of it. */
module EasySearch {
  import opened JsValues
  import opened EasySearchSpec

  class Registry {
    var indexes: map<string, Config>
    var searchers: map<string, Config>
    /** Every call into backend code so far, in order. */
    ghost var calls: seq<Call>

    ghost predicate Valid()
      reads this
    {
      WellFormed(Snapshot())
    }

    function Snapshot(): State
      reads this
    {
      State(indexes, searchers)
    }

    constructor ()
      ensures Valid()
      ensures indexes == map[] && searchers == map[] && calls == []
    {
      indexes := map[];
      searchers := map[];
      calls := [];
    }

    /** The placeholder `config`: it ignores its argument and answers an empty
        object. */
    method Configure(newConfig: Config) returns (r: Value)
      ensures r == Obj(map[])
    {
      r := Obj(map[]);
    }

    /** Creates (or recreates) an index. Returns the caller's options object as
        it is afterwards, with its `field` normalised. */
    method CreateSearchIndex(name: string, options: Config) returns (normalized: Config)
      requires Valid()
      modifies this
      ensures Valid()
      ensures normalized == NormalizeField(options)
      ensures indexes == old(indexes)[name := IndexConfig(options)]
      ensures searchers == old(searchers)
      ensures calls == old(calls) + CreationHook(old(searchers), name, normalized)
      ensures GetIndex(name) == Some(IndexConfig(options))
      ensures Snapshot() == CreateIndexStep(old(Snapshot()), name, options).state
    {
      ghost var before := Snapshot();
      var field := Get(options, "field");
      normalized := options["field" := if field.Arr? then field else Arr([field])];
      assert normalized == NormalizeField(options);
      indexes := indexes[name := Extend(Defaults, normalized)];
      StepPreservesWellFormed(before, CreateIndex(name, options), (id: nat, s: string) => true);
      var use := Get(normalized, "use");
      if use.Str? && use.s in searchers {
        calls := calls + [IndexHook(use.s, name, normalized)];
      }
    }

    /** Searches the index `name`. `grant` says what caller-supplied functions
        answer and `reply` is what the backend's search returns. */
    method Search(name: string, searchString: string, options: Config, callback: Value,
                  grant: Grant, reply: Value) returns (r: Result<Value>)
      requires Valid()
      modifies this
      ensures Valid()
      ensures searchers == old(searchers)
      ensures var out := SearchStep(old(Snapshot()), name, searchString, options, callback, reply, grant);
        Snapshot() == out.state && calls == old(calls) + out.calls && r == out.result
    {
      if name !in indexes {
        return Err(TypeError("the index is undefined"));
      }
      var searcherType := Get(indexes[name], "use");
      if !(callback.Undefined? || callback.Fn?) {
        return Err(MatchError("callback"));
      }
      if !(searcherType.Str? && searcherType.s in searchers) {
        return Err(MeteorError(500, searcherType));
      }
      var allowed := Permission(Get(indexes[name], "permission"), searchString, grant);
      if allowed.Err? {
        return Err(allowed.error);
      }
      if !allowed.value {
        return Ok(EmptyResult);
      }
      ghost var before := Snapshot();
      SearchGranted(before, name, searchString, options, callback, reply, grant);
      indexes := indexes[name := Extend(indexes[name], options)];
      StepPreservesWellFormed(before, Op.Search(name, searchString, options, callback, reply), grant);
      calls := calls + [SearchHook(searcherType.s, name, searchString, indexes[name], callback)];
      r := Ok(reply);
    }

    /** Registers (or replaces) the searcher type `key`. */
    method CreateSearcher(key: string, methods: Config) returns (r: Result<Value>)
      requires Valid()
      modifies this
      ensures Valid()
      ensures indexes == old(indexes) && calls == old(calls)
      ensures r.Ok? ==> GetSearcher(key) == Some(methods)
      ensures var out := CreateSearcherStep(old(Snapshot()), key, methods);
        Snapshot() == out.state && r == out.result
    {
      SearcherCheckOrder(methods);
      if !Get(methods, "search").Fn? {
        return Err(MatchError("search"));
      }
      if !Get(methods, "createSearchIndex").Fn? {
        return Err(MatchError("createSearchIndex"));
      }
      if !Get(methods, "defaultQuery").Fn? {
        return Err(MatchError("defaultQuery"));
      }
      if !Get(methods, "defaultSort").Fn? {
        return Err(MatchError("defaultSort"));
      }
      searchers := searchers[key := methods];
      r := Ok(Undefined);
    }

    function GetIndex(name: string): (r: Option<Config>)
      reads this
      ensures r.Some? <==> name in indexes
      ensures r.Some? ==> r.value == indexes[name]
    {
      if name in indexes then Some(indexes[name]) else None
    }

    function GetIndexes(): (r: map<string, Config>)
      reads this
      ensures forall n :: GetIndex(n) == if n in r then Some(r[n]) else None
    {
      indexes
    }

    function GetSearcher(name: string): (r: Option<Config>)
      reads this
      ensures r.Some? <==> name in searchers
      ensures r.Some? ==> r.value == searchers[name]
    {
      if name in searchers then Some(searchers[name]) else None
    }

    function GetSearchers(): (r: map<string, Config>)
      reads this
      ensures forall k :: GetSearcher(k) == if k in r then Some(r[k]) else None
    {
      searchers
    }
  }

  // ---------------------------------------------------------------------------
  // Clients: the registry in use

  /** A methods object with the four required members. */
  function FullSearcher(): (methods: Config)
    ensures ValidSearcher(methods)
  {
    map["search" := Fn(UserFn(1)), "createSearchIndex" := Fn(UserFn(2)),
        "defaultQuery" := Fn(UserFn(3)), "defaultSort" := Fn(UserFn(4))]
  }

  /** A single field is stored as a one-element array; an array of fields is
      stored as it is. */
  method FieldNormalizationScenario() returns (single: Value, several: Value)
    ensures single == Arr([Str("x")])
    ensures several == Arr([Str("x"), Str("y")])
  {
    var registry := new Registry();
    var _ := registry.CreateSearchIndex("one", map["field" := Str("x"), "use" := Str("k")]);
    var _ := registry.CreateSearchIndex("two", map["field" := Arr([Str("x"), Str("y")]), "use" := Str("k")]);
    single := Get(registry.GetIndex("one").value, "field");
    several := Get(registry.GetIndex("two").value, "field");
  }

  /** A permission check that refuses gives the empty result and the backend
      is never called. */
  method DeniedSearchScenario() returns (r: Result<Value>)
    ensures r == Ok(EmptyResult)
  {
    var registry := new Registry();
    var _ := registry.CreateSearcher("k", FullSearcher());
    var options := map["use" := Str("k"), "field" := Str("x"), "permission" := Fn(UserFn(0))];
    var _ := registry.CreateSearchIndex("i", options);
    IndexConfigLayers(options);
    ghost var before := registry.calls;
    r := registry.Search("i", "anything", map[], Undefined, (id: nat, s: string) => false, Str("answer"));
    assert registry.calls == before;
  }

  /** Searching an index whose searcher type was never registered fails with
      error 500 naming the type. */
  method UnknownBackendScenario() returns (r: Result<Value>)
    ensures r == Err(MeteorError(500, Str("nonexistent")))
  {
    var registry := new Registry();
    var options := map["use" := Str("nonexistent"), "field" := Str("x")];
    var _ := registry.CreateSearchIndex("i", options);
    IndexConfigLayers(options);
    r := registry.Search("i", "q", map[], Undefined, (id: nat, s: string) => true, Str("answer"));
  }

  /** A searcher without defaultQuery and defaultSort is refused at the first
      missing member, and not registered. */
  method IncompleteSearcherScenario() returns (r: Result<Value>, registered: bool)
    ensures r == Err(MatchError("defaultQuery"))
    ensures !registered
  {
    var registry := new Registry();
    r := registry.CreateSearcher("k", map["search" := Fn(UserFn(1)), "createSearchIndex" := Fn(UserFn(2))]);
    registered := registry.GetSearcher("k").Some?;
  }

  /** A search whose options carry a permission check installs it for good:
      that search still goes through, the next one is refused. */
  method RevokingSearchScenario() returns (first: Result<Value>, second: Result<Value>)
    ensures first == Ok(Str("answer"))
    ensures second == Ok(EmptyResult)
  {
    var registry := new Registry();
    var _ := registry.CreateSearcher("k", FullSearcher());
    var options := map["use" := Str("k"), "field" := Str("x")];
    var _ := registry.CreateSearchIndex("i", options);
    IndexConfigLayers(options);
    var deny := (id: nat, s: string) => id != 0;
    ghost var st := registry.Snapshot();
    assert Get(st.indexes["i"], "use") == Str("k");
    assert Get(st.indexes["i"], "permission") == Fn(ReturnsTrue);
    var revoke := map["permission" := Fn(UserFn(0))];
    SearchRevokesLaterSearches(st, "i", "q", Undefined, Str("answer"), deny, 0);
    first := registry.Search("i", "q", revoke, Undefined, deny, Str("answer"));
    second := registry.Search("i", "q", map[], Undefined, deny, Str("answer"));
  }
}
