/** The OPeNDAP decision logic of get_collections_with_opendap.py: the
    environment table, the RelatedUrl extraction, the OPeNDAP predicate, the
    order-preserving filter, the snapshot projection, and the two list helpers
    at the end of the file.
 */
module Opendap {
  import opened Values
  import opened Text
  import opened Seqs
  import opened Catalog

  /** One row of `environment_parameters`. */
  datatype Parameters = Parameters(edlRoot: string, graphql: string, hyraxSubstring: string)

  const EnvironmentParameters: map<string, Parameters> := map[
    "prod" := Parameters("https://urs.earthdata.nasa.gov",
                         "https://graphql.earthdata.nasa.gov/api",
                         "opendap.earthdata.nasa.gov"),
    "uat" := Parameters("https://uat.urs.earthdata.nasa.gov",
                        "https://graphql.uat.earthdata.nasa.gov/api",
                        "opendap.uat.earthdata.nasa.gov"),
    "sit" := Parameters("https://sit.urs.earthdata.nasa.gov",
                        "https://graphql.sit.earthdata.nasa.gov/api",
                        "opendap.sit.earthdata.nasa.gov")
  ]

  const AcceptedEnvironments: set<string> := {"sit", "uat", "prod"}

  const UseServiceApi := "USE SERVICE API"
  const OpendapData := "OPENDAP DATA"

  /** The check at the top of the discovery entry point: the name is
      lower-cased, and anything but `sit`, `uat` or `prod` raises
      `ValueError`. The accepted, lower-cased name is what the rest of the
      run uses. */
  function ValidateEnvironment(name: string): (r: Result<string>)
    ensures r.Success? <==> Lower(name) in AcceptedEnvironments
    ensures r.Failure? ==> r.error == ValueError
    ensures r.Success? ==> r.value == Lower(name) && r.value in EnvironmentParameters
  {
    var env := Lower(name);
    if env in AcceptedEnvironments then Success(env) else Failure(ValueError)
  }

  /** The accepted names are exactly the keys of the parameter table, so a
      validated run never looks up a missing row; and the check ignores case. */
  lemma ValidateEnvironmentMatchesTable(name: string)
    ensures ValidateEnvironment("sit") == Success("sit")
    ensures ValidateEnvironment("uat") == Success("uat")
    ensures ValidateEnvironment("prod") == Success("prod")
    ensures ValidateEnvironment("PROD") == Success("prod")
    ensures name in EnvironmentParameters <==> ValidateEnvironment(name) == Success(name)
  {
    assert Lower("sit") == "sit";
    assert Lower("uat") == "uat";
    assert Lower("prod") == "prod";
    assert Lower("PROD") == "prod";
  }

  /** Every Hyrax host substring is non-empty. */
  lemma HyraxSubstringsNonEmpty(env: string)
    requires env in EnvironmentParameters
    ensures |EnvironmentParameters[env].hyraxSubstring| > 0
  {
  }

  /** `get_collection_related_urls`: the first granule's `relatedUrls`, with
      `[]` when there are no granules, no `items`, an empty `items`, or a
      first granule without the member. The inner `None` stands for Python's
      `None`, returned when the member is explicitly `null`. The
      only raise is `.get` on a `granules` value that is not an object. */
  function RelatedUrls(c: Collection): (r: Result<Option<seq<RelatedUrl>>>)
    ensures r.Failure? <==> c.granules.NotAnObject?
    ensures r.Failure? ==> r.error == AttributeError
  {
    match c.granules
    case NotAnObject => Failure(AttributeError)
    case NoGranules => Success(Some([]))
    case NullGranules => Success(Some([]))
    case GranuleConnection(items) =>
      if items.None? || items.value == [] then Success(Some([]))
      else
        match items.value[0].relatedUrls
        case Missing => Success(Some([]))
        case Null => Success(None)
        case Present(urls) => Success(Some(urls))
  }

  /** A collection whose granule data lists no URL at all, in one of the six
      shapes the extraction treats alike. */
  predicate ListsNoUrls(c: Collection) {
    || c.granules.NoGranules?
    || c.granules.NullGranules?
    || (c.granules.GranuleConnection? && c.granules.items.None?)
    || (c.granules.GranuleConnection? && c.granules.items == Some([]))
    || (c.granules.GranuleConnection? && c.granules.items.Some? && c.granules.items.value != []
        && c.granules.items.value[0].relatedUrls.Missing?)
  }

  /** All six absence shapes give `[]` and never raise. */
  lemma RelatedUrlsAbsent(c: Collection)
    requires ListsNoUrls(c)
    ensures RelatedUrls(c) == Success(Some([]))
  {
  }

  /** Only the first granule is read: whatever follows it, the result is what
      that granule alone lists. */
  lemma RelatedUrlsFirstGranuleOnly(c: Collection, g: Granule, rest: seq<Granule>)
    requires c.granules == GranuleConnection(Some([g] + rest))
    ensures RelatedUrls(c) == RelatedUrls(c.(granules := GranuleConnection(Some([g]))))
    ensures g.relatedUrls.Present? ==> RelatedUrls(c) == Success(Some(g.relatedUrls.value))
    ensures g.relatedUrls.Null? ==> RelatedUrls(c) == Success(None)
  {
  }

  /** The first two conditions: type and subtype are the OPeNDAP service ones. */
  predicate IsOpendapService(u: RelatedUrl) {
    u.urlType == Some(UseServiceApi) && u.subtype == Some(OpendapData)
  }

  /** `related_url.get('url', '')`: `''` when absent, Python's `None` when
      `null`. */
  function UrlText(u: RelatedUrl): (r: Option<string>)
    ensures r.None? <==> u.url.Null?
    ensures u.url.Missing? ==> r == Some("")
    ensures u.url.Present? ==> r == Some(u.url.value)
  {
    match u.url
    case Missing => Some("")
    case Null => None
    case Present(s) => Some(s)
  }

  /** All three conditions hold for `u`. An entry without a `url` member
      is tested against `''`, so it matches only an empty substring. */
  function Matches(u: RelatedUrl, hyrax: string): (r: bool)
    ensures r ==> IsOpendapService(u) && !u.url.Null?
    ensures r && hyrax != "" ==> u.url.Present?
    ensures IsOpendapService(u) && u.url.Present? ==> (r <==> Contains(u.url.value, hyrax))
  {
    IsOpendapService(u) && UrlText(u).Some? && Contains(UrlText(u).value, hyrax)
  }

  /** Evaluating the third condition on `u` raises (`hyrax in None`): the
      first two hold and the `url` member is `null`. Such an entry matches no
      substring. */
  function Raises(u: RelatedUrl): (r: bool)
    ensures r <==> IsOpendapService(u) && UrlText(u).None?
    ensures r ==> forall hyrax :: !Matches(u, hyrax)
  {
    IsOpendapService(u) && u.url.Null?
  }

  /** The `any(...)` over the related URLs, in order and short-circuiting: it
      stops at the first match, and raises at the first OPeNDAP-typed entry
      with a `null` url reached before any match. */
  function AnyOpendapUrl(urls: seq<RelatedUrl>, hyrax: string): (r: Result<bool>)
    ensures r.Failure? ==> r.error == TypeError && exists i :: 0 <= i < |urls| && Raises(urls[i])
    ensures (forall i :: 0 <= i < |urls| ==> !Raises(urls[i])) ==>
              r == Success(exists i :: 0 <= i < |urls| && Matches(urls[i], hyrax))
    ensures r == Success(true) ==> exists i :: 0 <= i < |urls| && Matches(urls[i], hyrax)
    ensures r == Success(false) ==> forall i :: 0 <= i < |urls| ==> !Matches(urls[i], hyrax) && !Raises(urls[i])
    ensures (exists i :: 0 <= i < |urls| && Matches(urls[i], hyrax) && forall j :: 0 <= j < i ==> !Raises(urls[j]))
              ==> r == Success(true)
  {
    if urls == [] then Success(false)
    else
      var u := urls[0];
      assert forall i :: 0 < i < |urls| ==> urls[i] == urls[1..][i - 1];
      if !IsOpendapService(u) then AnyOpendapUrl(urls[1..], hyrax)
      else
        match UrlText(u)
        case None => Failure(TypeError)
        case Some(text) => if Contains(text, hyrax) then Success(true) else AnyOpendapUrl(urls[1..], hyrax)
  }

  /** The other half of the short-circuit: an entry that raises, reached
      before any match, makes the whole `any` raise, whatever follows it. */
  lemma {:induction false} AnyOpendapUrlRaisesFirst(urls: seq<RelatedUrl>, hyrax: string, i: nat)
    requires i < |urls| && Raises(urls[i])
    requires forall j :: 0 <= j < i ==> !Matches(urls[j], hyrax)
    ensures AnyOpendapUrl(urls, hyrax) == Failure(TypeError)
  {
    if i > 0 {
      assert !Matches(urls[0], hyrax);
      assert forall j :: 0 <= j < i - 1 ==> urls[1..][j] == urls[j + 1];
      AnyOpendapUrlRaisesFirst(urls[1..], hyrax, i - 1);
    }
  }

  /** `collection_has_opendap_url`. The Hyrax substring is looked up first
      (an unknown environment makes `.get` on `None` raise), then the related
      URLs are extracted (iterating a `None` list raises), then `any` runs. */
  function HasOpendap(c: Collection, env: string): (r: Result<bool>)
    ensures env !in EnvironmentParameters ==> r == Failure(AttributeError)
    ensures env in EnvironmentParameters && c.granules.NotAnObject? ==> r == Failure(AttributeError)
    ensures env in EnvironmentParameters && RelatedUrls(c) == Success(None) ==> r == Failure(TypeError)
    ensures ListsNoUrls(c) && env in EnvironmentParameters ==> r == Success(false)
    ensures env in EnvironmentParameters && RelatedUrls(c).Success? && RelatedUrls(c).value.Some? ==>
              r == AnyOpendapUrl(RelatedUrls(c).value.value, EnvironmentParameters[env].hyraxSubstring)
  {
    if env !in EnvironmentParameters then Failure(AttributeError)
    else
      var hyrax := EnvironmentParameters[env].hyraxSubstring;
      match RelatedUrls(c)
      case Failure(e) => Failure(e)
      case Success(listed) =>
        match listed
        case None => Failure(TypeError)
        case Some(urls) => AnyOpendapUrl(urls, hyrax)
  }

  /** The predicate holds exactly when some listed URL meets all three
      conditions, for every collection whose URLs do not make it raise. */
  lemma HasOpendapIff(c: Collection, env: string, urls: seq<RelatedUrl>)
    requires env in EnvironmentParameters
    requires RelatedUrls(c) == Success(Some(urls))
    requires forall i :: 0 <= i < |urls| ==> !Raises(urls[i])
    ensures HasOpendap(c, env) ==
            Success(exists i :: 0 <= i < |urls| && Matches(urls[i], EnvironmentParameters[env].hyraxSubstring))
  {
  }

  /** A collection whose first granule lists exactly one URL. */
  function SingleUrlCollection(u: RelatedUrl): Collection {
    Collection("short", "1", "C1-PROV", GranuleConnection(Some([Granule(Present([u]))])))
  }

  /** For a one-URL collection the predicate is true when all three
      conditions hold, and breaking any single one of them makes it false. */
  lemma SingleUrlFlips(env: string, pre: string, post: string, t: string, st: string, other: string)
    requires env in EnvironmentParameters
    requires t != UseServiceApi && st != OpendapData
    requires !Contains(other, EnvironmentParameters[env].hyraxSubstring)
    ensures var url := pre + EnvironmentParameters[env].hyraxSubstring + post;
            && HasOpendap(SingleUrlCollection(RelatedUrl(Some(UseServiceApi), Some(OpendapData), Present(url))), env) == Success(true)
            && HasOpendap(SingleUrlCollection(RelatedUrl(Some(t), Some(OpendapData), Present(url))), env) == Success(false)
            && HasOpendap(SingleUrlCollection(RelatedUrl(None, Some(OpendapData), Present(url))), env) == Success(false)
            && HasOpendap(SingleUrlCollection(RelatedUrl(Some(UseServiceApi), Some(st), Present(url))), env) == Success(false)
            && HasOpendap(SingleUrlCollection(RelatedUrl(Some(UseServiceApi), Some(OpendapData), Present(other))), env) == Success(false)
            && HasOpendap(SingleUrlCollection(RelatedUrl(Some(UseServiceApi), Some(OpendapData), Missing)), env) == Success(false)
  {
    var hyrax := EnvironmentParameters[env].hyraxSubstring;
    ContainsInfix(pre, hyrax, post);
    ContainsNeedsRoom("", hyrax);
  }

  /** Whether `filter_for_opendap_granules` keeps a collection. */
  function Keep(env: string): Collection -> bool {
    c => HasOpendap(c, env) == Success(true)
  }

  /** The error the predicate raises on a collection, if any. */
  function PredicateError(env: string): Collection -> Option<Error> {
    c => if HasOpendap(c, env).Failure? then Some(HasOpendap(c, env).error) else None
  }

  /** `filter_for_opendap_granules`: the list comprehension either raises
      with the first collection on which the predicate raises, or returns the
      collections the predicate accepts, in their original order. */
  function FilterForOpendapGranules(cs: seq<Collection>, env: string): (r: Result<seq<Collection>>)
    ensures r.Success? <==> forall i :: 0 <= i < |cs| ==> HasOpendap(cs[i], env).Success?
    ensures r.Failure? ==> exists i :: 0 <= i < |cs| && HasOpendap(cs[i], env) == Failure(r.error)
                                     && forall j :: 0 <= j < i ==> HasOpendap(cs[j], env).Success?
    ensures r.Success? ==> FilteredFrom(r.value, cs, Keep(env)) && |r.value| <= |cs|
    ensures r.Success? ==> forall c :: c in r.value <==> c in cs && HasOpendap(c, env) == Success(true)
  {
    match FirstError(cs, PredicateError(env))
    case Some(e) => Failure(e)
    case None => Success(Filter(cs, Keep(env)))
  }

  /** Filtering an already filtered list changes nothing. */
  lemma FilterForOpendapIdempotent(cs: seq<Collection>, env: string)
    requires FilterForOpendapGranules(cs, env).Success?
    ensures var out := FilterForOpendapGranules(cs, env).value;
            FilterForOpendapGranules(out, env) == Success(out)
  {
    var out := FilterForOpendapGranules(cs, env).value;
    assert forall i :: 0 <= i < |out| ==> out[i] in out;
    FilterKeepsAll(out, Keep(env));
  }

  /** `get_formatted_collection`. */
  function Format(c: Collection): (r: Record)
    ensures r.shortName == c.shortName && r.version == c.version && r.conceptId == c.conceptId
  {
    Record(c.shortName, c.version, c.conceptId)
  }

  /** The `formatted_output` of `save_opendap_collections`: one record per
      collection, in the same order, each a projection of its collection. */
  function FormatAll(cs: seq<Collection>): (r: seq<Record>)
    ensures |r| == |cs|
    ensures forall i :: 0 <= i < |cs| ==>
              r[i].shortName == cs[i].shortName && r[i].version == cs[i].version && r[i].conceptId == cs[i].conceptId
  {
    Map(cs, Format)
  }

  /** The filtered snapshot is drawn from the raw one: every saved record is
      the projection of a fetched collection that passed the predicate. */
  lemma SnapshotDrawnFromRaw(cs: seq<Collection>, env: string)
    requires FilterForOpendapGranules(cs, env).Success?
    ensures var records := FormatAll(FilterForOpendapGranules(cs, env).value);
            forall i :: 0 <= i < |records| ==>
              exists c :: c in cs && HasOpendap(c, env) == Success(true) && Format(c) == records[i]
  {
    var out := FilterForOpendapGranules(cs, env).value;
    var records := FormatAll(out);
    forall i | 0 <= i < |records|
      ensures exists c :: c in cs && HasOpendap(c, env) == Success(true) && Format(c) == records[i]
    {
      assert out[i] in out;
      assert Format(out[i]) == records[i];
    }
  }

  /** Whether a record's `concept_id` ends in `POCLOUD` (case-sensitive). */
  predicate IsPocloud(rec: Record) {
    EndsWith(rec.conceptId, "POCLOUD")
  }

  /** `get_short_names_for_pocloud`: the short names of the records whose
      concept ID ends in `POCLOUD`, in input order. Every such record
      contributes its short name and no other record contributes anything;
      with the one-record case and concatenation below, this fixes the
      result. */
  function ShortNamesForPocloud(data: seq<Record>): (r: seq<string>)
    ensures |r| <= |data|
    ensures forall i :: 0 <= i < |r| ==>
              exists rec :: rec in data && EndsWith(rec.conceptId, "POCLOUD") && rec.shortName == r[i]
    ensures forall rec :: rec in data && EndsWith(rec.conceptId, "POCLOUD") ==> rec.shortName in r
    ensures (forall rec :: rec in data ==> !EndsWith(rec.conceptId, "POCLOUD")) ==> r == []
  {
    var kept := Filter(data, IsPocloud);
    var r := Map(kept, (rec: Record) => rec.shortName);
    assert forall i :: 0 <= i < |r| ==> kept[i] in kept;
    assert forall rec :: rec in data && EndsWith(rec.conceptId, "POCLOUD") ==> rec.shortName in r by {
      forall rec | rec in data && EndsWith(rec.conceptId, "POCLOUD")
        ensures rec.shortName in r
      {
        assert rec in kept;
        var i :| 0 <= i < |kept| && kept[i] == rec;
        assert r[i] == rec.shortName;
      }
    }
    r
  }

  /** One record contributes its short name exactly when its concept ID ends
      in `POCLOUD`. */
  lemma ShortNamesForPocloudSingle(rec: Record)
    ensures ShortNamesForPocloud([rec]) == if EndsWith(rec.conceptId, "POCLOUD") then [rec.shortName] else []
  {
    assert [rec][1..] == [];
  }

  /** The suffix test is case-sensitive: an upper-case `POCLOUD` suffix is
      selected, a lower-case one is not. */
  lemma ShortNamesForPocloudCaseSensitive()
    ensures ShortNamesForPocloud([Record("upper", "1", "C1-POCLOUD")]) == ["upper"]
    ensures ShortNamesForPocloud([Record("lower", "1", "C1-pocloud")]) == []
  {
    var up := [Record("upper", "1", "C1-POCLOUD")];
    var low := [Record("lower", "1", "C1-pocloud")];
    assert "C1-POCLOUD"[3..] == "POCLOUD";
    assert EndsWith("C1-POCLOUD", "POCLOUD");
    assert Filter(up, IsPocloud) == up;
    assert !EndsWith("C1-pocloud", "POCLOUD") by {
      assert "C1-pocloud"[3] != "POCLOUD"[0];
    }
    assert Filter(low, IsPocloud) == [];
  }

  /** Selecting short names distributes over concatenation of the input. */
  lemma ShortNamesForPocloudConcat(a: seq<Record>, b: seq<Record>)
    ensures ShortNamesForPocloud(a + b) == ShortNamesForPocloud(a) + ShortNamesForPocloud(b)
  {
    FilterConcat(a, b, IsPocloud);
    MapConcat(Filter(a, IsPocloud), Filter(b, IsPocloud), (rec: Record) => rec.shortName);
  }

  /** Membership in `list1`, negated. */
  function NotIn<T(==)>(list1: seq<T>): T -> bool {
    x => x !in list1
  }

  /** The comprehension at the heart of `find_elements_in_second_list`: the
      elements of `list2` absent from `list1`, in `list2`'s order and with
      their repetitions. It is empty exactly when the script reports that
      every element of the second list is present in the first. */
  function ElementsNotInFirst<T(==,!new)>(list1: seq<T>, list2: seq<T>): (r: seq<T>)
    ensures FilteredFrom(r, list2, NotIn(list1))
    ensures forall x :: x in r ==> x !in list1 && x in list2
    ensures r == [] <==> forall x :: x in list2 ==> x in list1
  {
    var r := Filter(list2, NotIn(list1));
    assert r == [] <==> forall x :: x in list2 ==> x in list1 by {
      if r != [] {
        assert r[0] in r;
      }
    }
    r
  }
}
