/** What mirror_associations.py and manage_associations.py share: the
    environment tables, the case-insensitive provider test, the association
    payload, and the requests the scripts issue, as values.
 */
module Associations {
  import opened Values
  import opened Text
  import opened Seqs

  /** `CMR_URLS`. */
  const CmrUrls: map<string, string> := map[
    "uat" := "https://cmr.uat.earthdata.nasa.gov",
    "prod" := "https://cmr.earthdata.nasa.gov"
  ]

  /** `OPENDAP_CONCEPT_IDS`: the enterprise OPeNDAP UMM-S record per
      environment. */
  const OpendapConceptIds: map<string, string> := map[
    "uat" := "S1262134530-EEDTEST",
    "prod" := "S2874702816-XYZ_PROV"
  ]

  /** The environment check of both entry points: both tables are looked up
      with the name exactly as given (no lower-casing), and a miss in either
      raises. */
  function LookupEnvironment(env: string): (r: Option<(string, string)>)
    ensures r.Some? <==> env == "uat" || env == "prod"
    ensures r.Some? ==> r.value.0 == CmrUrls[env] && r.value.1 == OpendapConceptIds[env]
  {
    if env !in CmrUrls || env !in OpendapConceptIds then None
    else Some((CmrUrls[env], OpendapConceptIds[env]))
  }

  /** The environment check is case-sensitive, unlike the discovery one. */
  lemma LookupEnvironmentIsExact()
    ensures LookupEnvironment("prod").Some? && LookupEnvironment("uat").Some?
    ensures LookupEnvironment("PROD").None? && LookupEnvironment("sit").None?
  {
  }

  /** `collection_id.lower().endswith(collection_provider.lower())`. The
      empty provider keeps every ID; a provider longer than the ID keeps
      none; on IDs and providers already in lower case it is plain
      `endswith`. */
  function ProviderMatches(conceptId: string, provider: string): (r: bool)
    ensures provider == "" ==> r
    ensures |provider| > |conceptId| ==> !r
    ensures Lower(conceptId) == conceptId && Lower(provider) == provider ==> (r <==> EndsWith(conceptId, provider))
  {
    EndsWith(Lower(conceptId), Lower(provider))
  }

  function FromProvider(provider: string): string -> bool {
    id => ProviderMatches(id, provider)
  }

  /** The provider test ignores ASCII case on both sides. */
  lemma ProviderMatchesIgnoresCase(id: string, id': string, provider: string, provider': string)
    requires Lower(id) == Lower(id') && Lower(provider) == Lower(provider')
    ensures ProviderMatches(id, provider) <==> ProviderMatches(id', provider')
  {
  }

  /** The provider filter on three IDs: `POCLOUD`, written in any case,
      keeps `C1-POCLOUD` and `C3-POCLOUD`, in that order, and drops
      `C2-OTHER`. */
  lemma ProviderFilterExample(provider: string)
    requires Lower(provider) == "pocloud"
    ensures Filter(["C1-POCLOUD", "C2-OTHER", "C3-POCLOUD"], FromProvider(provider)) == ["C1-POCLOUD", "C3-POCLOUD"]
  {
    var ids := ["C1-POCLOUD", "C2-OTHER", "C3-POCLOUD"];
    var keep := FromProvider(provider);
    EndsWithPocloud("C1-POCLOUD", provider);
    EndsWithPocloud("C3-POCLOUD", provider);
    assert !ProviderMatches("C2-OTHER", provider) by {
      assert Lower("C2-OTHER")[7] == 'r';
    }
    assert ids[1..][1..][1..] == [];
    assert Filter(ids[1..][1..], keep) == ["C3-POCLOUD"];
    assert Filter(ids[1..], keep) == ["C3-POCLOUD"];
  }

  lemma EndsWithPocloud(id: string, provider: string)
    requires Lower(provider) == "pocloud"
    requires |id| == 10 && id[3..] == "POCLOUD"
    ensures ProviderMatches(id, provider)
  {
    var low := Lower(id);
    assert low[3] == 'p' && low[4] == 'o' && low[5] == 'c' && low[6] == 'l';
    assert low[7] == 'o' && low[8] == 'u' && low[9] == 'd';
    assert low[3..] == "pocloud";
  }

  /** One element `{'concept_id': id}` of an association request body. */
  datatype AssociationEntry = AssociationEntry(conceptId: string)

  /** The request body of `create_associations` and `remove_associations`. */
  function Payload(ids: seq<string>): (p: seq<AssociationEntry>)
    ensures |p| == |ids|
    ensures forall i :: 0 <= i < |ids| ==> p[i].conceptId == ids[i]
  {
    Map(ids, (id: string) => AssociationEntry(id))
  }

  /** The concept IDs a body names, in order. */
  function PayloadIds(p: seq<AssociationEntry>): (ids: seq<string>)
    ensures |ids| == |p|
    ensures forall i :: 0 <= i < |p| ==> ids[i] == p[i].conceptId
  {
    Map(p, (e: AssociationEntry) => e.conceptId)
  }

  /** The body determines the ID list and back: nothing is dropped,
      duplicated or reordered. */
  lemma PayloadRoundTrip(ids: seq<string>, p: seq<AssociationEntry>)
    ensures PayloadIds(Payload(ids)) == ids
    ensures Payload(PayloadIds(p)) == p
  {
  }

  /** Payloads are equal exactly when their ID lists are. */
  lemma PayloadInjective(a: seq<string>, b: seq<string>)
    ensures Payload(a) == Payload(b) <==> a == b
  {
    if Payload(a) == Payload(b) {
      PayloadRoundTrip(a, []);
      PayloadRoundTrip(b, []);
    }
  }

  /** A reply to a create or remove request. */
  datatype Reply = Accepted | Rejected(status: int)

  /** The outside actions of the association scripts. */
  datatype Action =
    | ReadSnapshot(fileName: string)
    | SearchService(cmrUrl: string, serviceId: string)
    | CreateAssociations(cmrUrl: string, serviceId: string, payload: seq<AssociationEntry>)
    | RemoveAssociations(cmrUrl: string, serviceId: string, payload: seq<AssociationEntry>)

  /** The actions a run issues, in order, and how it ends. */
  datatype Plan = Plan(actions: seq<Action>, completion: Completion)

  /** `raise_for_status` on a create or remove reply: an accepted reply lets
      the script carry on, a rejected one raises its status. */
  function Check(reply: Reply): (c: Completion)
    ensures c == Completed <==> reply.Accepted?
    ensures reply.Rejected? ==> c == Raised(HttpError(reply.status))
  {
    match reply
    case Accepted => Completed
    case Rejected(status) => Raised(HttpError(status))
  }
}
