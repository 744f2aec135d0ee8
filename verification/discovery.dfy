/** The entry point `get_collections_with_opendap_urls`: validate the
    environment, obtain a token, obtain the raw collections (from the
    paginated catalog, saving them, or from a raw snapshot file), filter them
    for OPeNDAP, and save the projected records.

    Token issuance, the HTTP exchange and the file system are observable
    only as the effects the run issues, in order; their answers are inputs
    (the scripted catalog, the contents of the file).
 */
module Discovery {
  import opened Values
  import opened Text
  import opened Seqs
  import opened Catalog
  import opened Opendap
  import opened Pagination

  /** The outside actions of a run. */
  datatype Effect =
    | TokenRequest(edlRoot: string)
    | CatalogQuery(endpoint: string, limit: int, cursor: RequestCursor)
    | SaveAllCollections(fileName: string, collections: seq<Collection>)
    | ReadAllCollections(path: string)
    | SaveOpendapCollections(fileName: string, records: seq<Record>)

  /** Where the raw collections come from: the catalog (when no `file_path`
      is given), or a raw snapshot file, whose contents are `None` when it
      does not exist. */
  datatype Source = QueryCatalog(script: seq<Response>) | ReadFile(path: string, contents: Option<seq<Collection>>)

  /** The effects issued and how the run ended (the saved records on
      success). */
  datatype Trace = Trace(effects: seq<Effect>, outcome: Result<seq<Record>>)

  /** The raw snapshot's file name; the environment sits between a fixed
      prefix and the `.json` extension, so it can be read back. */
  function AllCollectionsFile(env: string): (r: string)
    ensures IsPrefix("all_collections_", r) && EndsWith(r, ".json")
    ensures |r| == |env| + 21 && r[16..|r| - 5] == env
  {
    "all_collections_" + env + ".json"
  }

  /** The OPeNDAP snapshot's file name, read back by the association
      script; the environment can be read back from it too. */
  function OpendapCollectionsFile(env: string): (r: string)
    ensures IsPrefix("opendap_collections_", r) && EndsWith(r, ".json")
    ensures |r| == |env| + 25 && r[20..|r| - 5] == env
  {
    "opendap_collections_" + env + ".json"
  }

  /** The two snapshots never share a name, and different environments
      never share a snapshot: no run overwrites another run's files. */
  lemma SnapshotFilesDistinct(env1: string, env2: string)
    ensures AllCollectionsFile(env1) != OpendapCollectionsFile(env2)
    ensures env1 != env2 ==> AllCollectionsFile(env1) != AllCollectionsFile(env2)
    ensures env1 != env2 ==> OpendapCollectionsFile(env1) != OpendapCollectionsFile(env2)
  {
    assert AllCollectionsFile(env1)[0] == 'a';
    assert OpendapCollectionsFile(env2)[0] == 'o';
  }

  /** The effects of the paginated fetch: one query per request, carrying
      that request's cursor. */
  function Queries(endpoint: string, requests: seq<RequestCursor>): (r: seq<Effect>)
    ensures |r| == |requests|
    ensures forall i :: 0 <= i < |requests| ==> r[i] == CatalogQuery(endpoint, PageSize, requests[i])
  {
    Map(requests, (c: RequestCursor) => CatalogQuery(endpoint, PageSize, c))
  }

  /** The raw collections a source yields, when it yields any: the file's
      contents, or, when the paginated fetch ends without raising and before
      the replies run out, the items of every page it consumed, at the point
      where the loop must stop. */
  function RawCollections(source: Source): (r: Option<seq<Collection>>)
    ensures source.ReadFile? ==> r == source.contents
    ensures source.QueryCatalog? ==>
              var f := QueryCollections(source.script);
              var consumed := source.script[..|f.requests|];
              && (r.Some? <==> Stops(consumed) && RaisedBy(consumed).None?)
              && (r.Some? ==> r.value == OkItems(consumed))
  {
    match source
    case QueryCatalog(script) =>
      var f := QueryCollections(script);
      var n := |f.requests|;
      assert n >= 1 ==> Init(script[..n]) == script[..n - 1] && !Stops(script[..n - 1]);
      if f.complete && f.raised.None? then Some(f.collections) else None
    case ReadFile(_, contents) => contents
  }

  /** The filter and save steps, after the raw collections are in hand: a
      raise in the filter saves nothing; otherwise exactly the returned
      records are saved, once, under the environment's file name, and they
      are the projections of the collections the predicate accepts. */
  function FilterAndSave(env: string, before: seq<Effect>, raw: seq<Collection>): (d: Trace)
    requires env in EnvironmentParameters
    ensures d.outcome.Success? <==> forall i :: 0 <= i < |raw| ==> HasOpendap(raw[i], env).Success?
    ensures d.outcome.Failure? ==> d.effects == before
    ensures d.outcome.Failure? ==> d.outcome.error == FilterForOpendapGranules(raw, env).error
    ensures d.outcome.Success? ==>
              && d.effects == before + [SaveOpendapCollections(OpendapCollectionsFile(env), d.outcome.value)]
              && d.outcome.value == FormatAll(Filter(raw, Keep(env)))
  {
    match FilterForOpendapGranules(raw, env)
    case Failure(e) => Trace(before, Failure(e))
    case Success(kept) =>
      var records := FormatAll(kept);
      Trace(before + [SaveOpendapCollections(OpendapCollectionsFile(env), records)], Success(records))
  }

  /** `get_collections_with_opendap_urls(environment, file_path)`. An
      unaccepted name raises before any effect. Otherwise the first effect is
      the token request for the environment; a successful run ends by saving
      exactly the records it returns, under the lower-cased environment's
      file name, and those records are the projections, in order, of the raw
      collections the predicate accepts. */
  function GetCollectionsWithOpendapUrls(name: string, source: Source): (d: Trace)
    ensures Lower(name) !in AcceptedEnvironments ==> d == Trace([], Failure(ValueError))
    ensures Lower(name) in AcceptedEnvironments ==>
              d.effects != [] && d.effects[0] == TokenRequest(EnvironmentParameters[Lower(name)].edlRoot)
    ensures d.outcome.Success? ==>
              && RawCollections(source).Some?
              && Last(d.effects) == SaveOpendapCollections(OpendapCollectionsFile(Lower(name)), d.outcome.value)
              && (forall i :: 0 <= i < |RawCollections(source).value| ==>
                    HasOpendap(RawCollections(source).value[i], Lower(name)).Success?)
              && d.outcome.value == FormatAll(Filter(RawCollections(source).value, Keep(Lower(name))))
  {
    match ValidateEnvironment(name)
    case Failure(e) => Trace([], Failure(e))
    case Success(env) =>
      var token := [TokenRequest(EnvironmentParameters[env].edlRoot)];
      match source
      case QueryCatalog(script) =>
        var f := QueryCollections(script);
        var fetched := token + Queries(EnvironmentParameters[env].graphql, f.requests);
        if !f.complete then Trace(fetched, Failure(ScriptExhausted))
        else if f.raised.Some? then Trace(fetched, Failure(f.raised.value))
        else FilterAndSave(env, fetched + [SaveAllCollections(AllCollectionsFile(env), f.collections)], f.collections)
      case ReadFile(path, contents) =>
        var read := token + [ReadAllCollections(path)];
        if contents.None? then Trace(read, Failure(FileNotFound))
        else FilterAndSave(env, read, contents.value)
  }

  /** A catalog run that completes and filters without raising issues, in
      order: the token request, one query per request with that request's
      cursor, the save of every fetched collection, and the save of the
      filtered records. */
  lemma CatalogRunEffectOrder(name: string, script: seq<Response>)
    requires Lower(name) in AcceptedEnvironments
    requires QueryCollections(script).complete && QueryCollections(script).raised.None?
    requires FilterForOpendapGranules(QueryCollections(script).collections, Lower(name)).Success?
    ensures var env := Lower(name);
            var d := GetCollectionsWithOpendapUrls(name, QueryCatalog(script));
            var f := QueryCollections(script);
            && d.outcome.Success?
            && d.effects == [TokenRequest(EnvironmentParameters[env].edlRoot)]
                         + Queries(EnvironmentParameters[env].graphql, f.requests)
                         + [SaveAllCollections(AllCollectionsFile(env), f.collections),
                            SaveOpendapCollections(OpendapCollectionsFile(env), d.outcome.value)]
  {
    var env := Lower(name);
    assert ValidateEnvironment(name) == Success(env);
    var f := QueryCollections(script);
    assert f.complete && f.raised.None?;
    var d := GetCollectionsWithOpendapUrls(name, QueryCatalog(script));
    var fetched := [TokenRequest(EnvironmentParameters[env].edlRoot)] + Queries(EnvironmentParameters[env].graphql, f.requests);
    assert d == FilterAndSave(env, fetched + [SaveAllCollections(AllCollectionsFile(env), f.collections)], f.collections);
  }

  /** With a raw snapshot file the queries and the raw save are replaced by
      one read: token request, read, save of the filtered records. */
  lemma FileRunEffectOrder(name: string, path: string, contents: Option<seq<Collection>>)
    requires Lower(name) in AcceptedEnvironments
    requires contents.Some? && FilterForOpendapGranules(contents.value, Lower(name)).Success?
    ensures var env := Lower(name);
            var d := GetCollectionsWithOpendapUrls(name, ReadFile(path, contents));
            && d.outcome.Success?
            && d.effects == [TokenRequest(EnvironmentParameters[env].edlRoot), ReadAllCollections(path),
                          SaveOpendapCollections(OpendapCollectionsFile(env), d.outcome.value)]
  {
    var env := Lower(name);
    assert ValidateEnvironment(name) == Success(env);
  }

  /** A missing raw snapshot file raises after the read and saves nothing. */
  lemma MissingFileRaises(name: string, path: string)
    requires Lower(name) in AcceptedEnvironments
    ensures var d := GetCollectionsWithOpendapUrls(name, ReadFile(path, None));
            d.outcome == Failure(FileNotFound) && |d.effects| == 2 && Last(d.effects) == ReadAllCollections(path)
  {
  }

  /** When the catalog keeps failing, the run gives up on the raw list after
      three queries but still filters and saves: an empty snapshot. */
  lemma DiscoveryAllErrors(name: string, script: seq<Response>)
    requires Lower(name) in AcceptedEnvironments
    requires |script| >= MaxErrors
    requires forall i :: 0 <= i < |script| ==> script[i].Failed?
    ensures GetCollectionsWithOpendapUrls(name, QueryCatalog(script)).outcome == Success([])
    ensures |GetCollectionsWithOpendapUrls(name, QueryCatalog(script)).effects| == 1 + MaxErrors + 2
  {
    AllErrorsGiveUp(script);
  }

  /** A fetch that raises ends the run after the last query: the raw list
      is not saved, nothing is filtered, and no snapshot is written. */
  lemma CatalogRaiseSavesNothing(name: string, script: seq<Response>)
    requires Lower(name) in AcceptedEnvironments
    requires QueryCollections(script).raised.Some?
    ensures var env := Lower(name);
            var d := GetCollectionsWithOpendapUrls(name, QueryCatalog(script));
            var f := QueryCollections(script);
            && d.outcome == Failure(f.raised.value)
            && d.effects == [TokenRequest(EnvironmentParameters[env].edlRoot)]
                            + Queries(EnvironmentParameters[env].graphql, f.requests)
  {
    assert ValidateEnvironment(name) == Success(Lower(name));
  }

  /** A fetch that completes without raising saves the raw list; a raise in
      the filter then ends the run with that error, and no OPeNDAP snapshot
      is written. */
  lemma CatalogFilterRaises(name: string, script: seq<Response>)
    requires Lower(name) in AcceptedEnvironments
    requires QueryCollections(script).complete && QueryCollections(script).raised.None?
    requires FilterForOpendapGranules(QueryCollections(script).collections, Lower(name)).Failure?
    ensures var env := Lower(name);
            var d := GetCollectionsWithOpendapUrls(name, QueryCatalog(script));
            var f := QueryCollections(script);
            d == Trace([TokenRequest(EnvironmentParameters[env].edlRoot)]
                       + Queries(EnvironmentParameters[env].graphql, f.requests)
                       + [SaveAllCollections(AllCollectionsFile(env), f.collections)],
                       Failure(FilterForOpendapGranules(f.collections, env).error))
  {
    var env := Lower(name);
    assert ValidateEnvironment(name) == Success(env);
    var f := QueryCollections(script);
    var fetched := [TokenRequest(EnvironmentParameters[env].edlRoot)] + Queries(EnvironmentParameters[env].graphql, f.requests);
    assert GetCollectionsWithOpendapUrls(name, QueryCatalog(script))
        == FilterAndSave(env, fetched + [SaveAllCollections(AllCollectionsFile(env), f.collections)], f.collections);
  }

  /** With a raw snapshot file, a raise in the filter ends the run after the
      read with that error; nothing is saved. */
  lemma FileFilterRaises(name: string, path: string, contents: seq<Collection>)
    requires Lower(name) in AcceptedEnvironments
    requires FilterForOpendapGranules(contents, Lower(name)).Failure?
    ensures var env := Lower(name);
            GetCollectionsWithOpendapUrls(name, ReadFile(path, Some(contents)))
              == Trace([TokenRequest(EnvironmentParameters[env].edlRoot), ReadAllCollections(path)],
                       Failure(FilterForOpendapGranules(contents, env).error))
  {
    assert ValidateEnvironment(name) == Success(Lower(name));
  }
}
