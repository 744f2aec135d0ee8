/** mirror_associations.py: read the collections associated with one
    service record, keep those of a provider, associate them with the
    environment's OPeNDAP record, and optionally remove them from the first
    record.
 */
module MirrorAssociations {
  import opened Values
  import opened Seqs
  import opened Associations

  /** `meta.associations` of a service record: its `collections` member. */
  datatype ServiceAssociations = ServiceAssociations(collections: Field<seq<string>>)

  /** One item of the `services.umm_json` search result; only
      `meta.associations` is read. */
  datatype ServiceRecord = ServiceRecord(associations: Field<ServiceAssociations>)

  /** The search reply: the `items` list, or a status of 400 or more. */
  datatype SearchReply = Found(items: seq<ServiceRecord>) | SearchFailed(status: int)

  /** The concept IDs listed under the record's associations; `[]` when the
      `associations` or `collections` member is absent. */
  function ListedCollections(record: ServiceRecord): (r: seq<string>)
    ensures record.associations.Present? && record.associations.value.collections.Present? ==>
              r == record.associations.value.collections.value
    ensures r != [] ==> record.associations.Present? && record.associations.value.collections.Present?
  {
    if record.associations.Present? && record.associations.value.collections.Present?
    then record.associations.value.collections.value
    else []
  }

  /** The filter of `get_associated_collections` over the search items. An
      empty `items` list raises (the script raises a `str`, which Python
      turns into a `TypeError`); a `null` `associations` or `collections`
      raises; otherwise the result is exactly the first record's listed IDs
      that end with the provider, ignoring case, in their original order. */
  function AssociatedCollections(items: seq<ServiceRecord>, provider: string): (r: Result<seq<string>>)
    ensures items == [] ==> r == Failure(TypeError)
    ensures items != [] && items[0].associations.Null? ==> r == Failure(AttributeError)
    ensures (items != [] && items[0].associations.Present? && items[0].associations.value.collections.Null?)
              ==> r == Failure(TypeError)
    ensures r.Success? <==>
              items != [] && !items[0].associations.Null?
              && !(items[0].associations.Present? && items[0].associations.value.collections.Null?)
    ensures r.Success? ==> FilteredFrom(r.value, ListedCollections(items[0]), FromProvider(provider))
    ensures r.Success? ==> forall id :: id in r.value <==> id in ListedCollections(items[0]) && ProviderMatches(id, provider)
  {
    if items == [] then Failure(TypeError)
    else
      match items[0].associations
      case Null => Failure(AttributeError)
      case Missing => Success(Filter([], FromProvider(provider)))
      case Present(a) =>
        match a.collections
        case Null => Failure(TypeError)
        case Missing => Success(Filter([], FromProvider(provider)))
        case Present(ids) => Success(Filter(ids, FromProvider(provider)))
  }

  /** A record with no associations, or with associations but no
      collections, yields the empty list; records after the first are never
      read. */
  lemma AssociatedCollectionsDefaults(first: ServiceRecord, rest: seq<ServiceRecord>, provider: string)
    requires first.associations.Missing? || (first.associations.Present? && first.associations.value.collections.Missing?)
    ensures AssociatedCollections([first] + rest, provider) == Success([])
  {
  }

  /** `mirror_service_associations` with the search, create and remove
      replies as inputs. */
  function MirrorServiceAssociations(serviceWithAssociations: string, provider: string, env: string,
                                     removeOld: bool, search: SearchReply, create: Reply, remove: Reply): (p: Plan)
    ensures LookupEnvironment(env).None? ==> p == Plan([], Raised(InvalidEnvironment))
    ensures LookupEnvironment(env).Some? ==>
              p.actions != [] && p.actions[0] == SearchService(CmrUrls[env], serviceWithAssociations)
    ensures |p.actions| <= 3
    ensures p.completion == Completed ==> |p.actions| == if removeOld then 3 else 2
    ensures p.completion == Completed ==> create == Accepted && (removeOld ==> remove == Accepted)
  {
    match LookupEnvironment(env)
    case None => Plan([], Raised(InvalidEnvironment))
    case Some((cmrUrl, opendapId)) =>
      var searched := [SearchService(cmrUrl, serviceWithAssociations)];
      match search
      case SearchFailed(status) => Plan(searched, Raised(HttpError(status)))
      case Found(items) =>
        match AssociatedCollections(items, provider)
        case Failure(e) => Plan(searched, Raised(e))
        case Success(ids) =>
          var created := searched + [CreateAssociations(cmrUrl, opendapId, Payload(ids))];
          if Check(create).Raised? then Plan(created, Check(create))
          else if !removeOld then Plan(created, Completed)
          else Plan(created + [RemoveAssociations(cmrUrl, serviceWithAssociations, Payload(ids))], Check(remove))
  }

  /** Once the provider-filtered list is known: a create request is always
      issued, second, against the environment's OPeNDAP record, carrying
      exactly that list; a remove request follows iff removal was asked for
      and the create succeeded, against the source record, with the same
      list; nothing else is issued. After an accepted create the run ends as
      the remove reply says, or normally when no removal was asked for. */
  lemma MirrorRequestOrder(serviceWithAssociations: string, provider: string, env: string,
                           removeOld: bool, items: seq<ServiceRecord>, create: Reply, remove: Reply)
    requires LookupEnvironment(env).Some?
    requires AssociatedCollections(items, provider).Success?
    ensures var ids := AssociatedCollections(items, provider).value;
            var p := MirrorServiceAssociations(serviceWithAssociations, provider, env, removeOld, Found(items), create, remove);
            && |p.actions| >= 2
            && p.actions[1] == CreateAssociations(CmrUrls[env], OpendapConceptIds[env], Payload(ids))
            && (|p.actions| == 3 <==> removeOld && create == Accepted)
            && (|p.actions| == 3 ==> p.actions[2] == RemoveAssociations(CmrUrls[env], serviceWithAssociations, Payload(ids)))
            && (create.Rejected? ==> p.completion == Raised(HttpError(create.status)))
            && (create == Accepted && !removeOld ==> p.completion == Completed)
            && (create == Accepted && removeOld ==> p.completion == Check(remove))
            && (create == Accepted && removeOld && remove.Rejected? ==> p.completion == Raised(HttpError(remove.status)))
  {
  }

  /** A failed search or an unusable search result stops the run after the
      search: no association request is issued. */
  lemma MirrorStopsAfterSearch(serviceWithAssociations: string, provider: string, env: string,
                               removeOld: bool, search: SearchReply, create: Reply, remove: Reply)
    requires LookupEnvironment(env).Some?
    requires search.SearchFailed? || AssociatedCollections(search.items, provider).Failure?
    ensures var p := MirrorServiceAssociations(serviceWithAssociations, provider, env, removeOld, search, create, remove);
            && |p.actions| == 1
            && (search.SearchFailed? ==> p.completion == Raised(HttpError(search.status)))
            && (search.Found? ==> p.completion == Raised(AssociatedCollections(search.items, provider).error))
  {
  }
}
