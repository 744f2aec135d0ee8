/** manage_associations.py: read the filtered snapshot written by the
    discovery script, keep one provider's concept IDs, and associate them with
    the environment's OPeNDAP record in one request.
 */
module ManageAssociations {
  import opened Values
  import opened Text
  import opened Seqs
  import opened Catalog
  import opened Associations
  import Opendap
  import Discovery

  /** One object of the snapshot file; only `concept_id` is read. */
  datatype SnapshotRecord = SnapshotRecord(conceptId: Field<string>)

  /** The concept IDs the snapshot holds, in order, skipping records without
      one. */
  function PresentIds(snapshot: seq<SnapshotRecord>): (ids: seq<string>)
    ensures |ids| <= |snapshot|
    ensures forall id :: id in ids <==> exists i :: 0 <= i < |snapshot| && snapshot[i].conceptId == Present(id)
  {
    if snapshot == [] then []
    else
      assert forall i :: 0 < i < |snapshot| ==> snapshot[i] == snapshot[1..][i - 1];
      match snapshot[0].conceptId
      case Present(id) => [id] + PresentIds(snapshot[1..])
      case _ => PresentIds(snapshot[1..])
  }

  /** The IDs of a concatenation are those of each part, one after the
      other: the list follows snapshot order and keeps repetitions. */
  lemma {:induction false} PresentIdsConcat(a: seq<SnapshotRecord>, b: seq<SnapshotRecord>)
    ensures PresentIds(a + b) == PresentIds(a) + PresentIds(b)
  {
    if a == [] {
      assert a + b == b;
    } else {
      assert (a + b)[0] == a[0];
      assert (a + b)[1..] == a[1..] + b;
      PresentIdsConcat(a[1..], b);
    }
  }

  /** A single record contributes its ID exactly when it has one. */
  lemma PresentIdsSingle(rec: SnapshotRecord)
    ensures PresentIds([rec]) == if rec.conceptId.Present? then [rec.conceptId.value] else []
  {
    assert [rec][1..] == [];
  }

  /** What evaluating the comprehension on one record raises, if anything:
      `None.lower()` for a `null` ID; and, for an absent ID, which is read as
      `''`, the subscript `collection['concept_id']` once `''` passes the
      suffix test, which happens exactly when the provider is empty. */
  function RecordError(provider: string, rec: SnapshotRecord): (e: Option<Error>)
    ensures e == Some(AttributeError) <==> rec.conceptId.Null?
    ensures e == Some(KeyError) <==> rec.conceptId.Missing? && provider == ""
    ensures rec.conceptId.Present? ==> e == None
  {
    assert Lower("") == "" && |Lower(provider)| == |provider|;
    match rec.conceptId
    case Null => Some(AttributeError)
    case Missing => if EndsWith(Lower(""), Lower(provider)) then Some(KeyError) else None
    case Present(_) => None
  }

  function RecordErrorOf(provider: string): SnapshotRecord -> Option<Error> {
    rec => RecordError(provider, rec)
  }

  /** `get_provider_collections` over the snapshot's contents. Either it
      raises on the first record the comprehension cannot handle, or it
      returns the snapshot's concept IDs that end with the provider, ignoring
      case, in snapshot order. */
  function ProviderCollections(provider: string, snapshot: seq<SnapshotRecord>): (r: Result<seq<string>>)
    ensures r.Success? <==> forall i :: 0 <= i < |snapshot| ==> RecordError(provider, snapshot[i]).None?
    ensures r.Failure? ==> exists i :: 0 <= i < |snapshot| && RecordError(provider, snapshot[i]) == Some(r.error)
                                     && forall j :: 0 <= j < i ==> RecordError(provider, snapshot[j]).None?
    ensures r.Success? ==> FilteredFrom(r.value, PresentIds(snapshot), FromProvider(provider))
    ensures r.Success? ==> |r.value| <= |snapshot|
    ensures r.Success? ==> forall id :: id in r.value ==>
              ProviderMatches(id, provider) && exists i :: 0 <= i < |snapshot| && snapshot[i].conceptId == Present(id)
  {
    match FirstError(snapshot, RecordErrorOf(provider))
    case Some(e) => Failure(e)
    case None => Success(Filter(PresentIds(snapshot), FromProvider(provider)))
  }

  /** Records without a `concept_id` are skipped for a non-empty provider
      and make an empty provider raise `KeyError`; a `null` one always
      raises. */
  lemma MissingConceptIds(provider: string, snapshot: seq<SnapshotRecord>)
    requires forall i :: 0 <= i < |snapshot| ==> !snapshot[i].conceptId.Null?
    ensures provider != "" ==> ProviderCollections(provider, snapshot).Success?
    ensures provider == "" && (exists i :: 0 <= i < |snapshot| && snapshot[i].conceptId.Missing?) ==>
              ProviderCollections(provider, snapshot) == Failure(KeyError)
  {
    assert Lower("") == "";
    if provider != "" {
      assert Lower(provider) != "" by {
        assert |Lower(provider)| == |provider|;
      }
    }
  }

  /** The snapshot object the discovery script writes for a record. */
  function ToSnapshot(rec: Record): SnapshotRecord {
    SnapshotRecord(Present(rec.conceptId))
  }

  /** Read back as snapshot objects, the records the discovery script saves
      never make the provider filter raise, for any provider, and it selects
      their concept IDs by suffix in saved order. */
  lemma {:induction false} SavedSnapshotFeedsFilter(provider: string, records: seq<Record>)
    ensures var snapshot := Map(records, ToSnapshot);
            ProviderCollections(provider, snapshot)
            == Success(Filter(Map(records, (rec: Record) => rec.conceptId), FromProvider(provider)))
  {
    var snapshot := Map(records, ToSnapshot);
    assert forall i :: 0 <= i < |snapshot| ==> RecordError(provider, snapshot[i]).None?;
    PresentIdsOfSaved(records);
  }

  lemma {:induction false} PresentIdsOfSaved(records: seq<Record>)
    ensures PresentIds(Map(records, ToSnapshot)) == Map(records, (rec: Record) => rec.conceptId)
  {
    if records != [] {
      PresentIdsOfSaved(records[1..]);
      assert Map(records, ToSnapshot)[1..] == Map(records[1..], ToSnapshot);
      assert Map(records, (rec: Record) => rec.conceptId)
             == [records[0].conceptId] + Map(records[1..], (rec: Record) => rec.conceptId);
    }
  }

  /** `make_opendap_associations`, with the snapshot's contents (`None` when
      the file does not exist) and the create reply as inputs. */
  function MakeOpendapAssociations(provider: string, env: string, snapshot: Option<seq<SnapshotRecord>>, create: Reply): (p: Plan)
    ensures LookupEnvironment(env).None? ==> p == Plan([], Raised(InvalidEnvironment))
    ensures LookupEnvironment(env).Some? ==>
              p.actions != [] && p.actions[0] == ReadSnapshot(Discovery.OpendapCollectionsFile(env))
    ensures |p.actions| <= 2
    ensures p.completion == Completed ==> |p.actions| == 2
  {
    match LookupEnvironment(env)
    case None => Plan([], Raised(InvalidEnvironment))
    case Some((cmrUrl, opendapId)) =>
      var read := [ReadSnapshot(Discovery.OpendapCollectionsFile(env))];
      match snapshot
      case None => Plan(read, Raised(FileNotFound))
      case Some(records) =>
        match ProviderCollections(provider, records)
        case Failure(e) => Plan(read, Raised(e))
        case Success(ids) =>
          Plan(read + [CreateAssociations(cmrUrl, opendapId, Payload(ids))], Check(create))
  }

  /** Once the provider's IDs are known, exactly one request is issued,
      after the read: a create against the environment's OPeNDAP record
      carrying exactly those IDs; the run ends as the create reply says. */
  lemma MakeAssociationsSingleCreate(provider: string, env: string, records: seq<SnapshotRecord>, create: Reply)
    requires LookupEnvironment(env).Some?
    requires forall i :: 0 <= i < |records| ==> RecordError(provider, records[i]).None?
    ensures var p := MakeOpendapAssociations(provider, env, Some(records), create);
            && |p.actions| == 2
            && p.actions[1] == CreateAssociations(CmrUrls[env], OpendapConceptIds[env],
                                                 Payload(ProviderCollections(provider, records).value))
            && p.completion == Check(create)
            && (p.completion == Completed <==> create == Accepted)
  {
  }

  /** A missing snapshot file, or a record that makes the provider filter
      raise, ends the run right after the read: no create is issued. */
  lemma MakeAssociationsStopsAfterRead(provider: string, env: string, snapshot: Option<seq<SnapshotRecord>>, create: Reply)
    requires LookupEnvironment(env).Some?
    ensures var p := MakeOpendapAssociations(provider, env, snapshot, create);
            && (snapshot.None? ==> p == Plan([ReadSnapshot(Discovery.OpendapCollectionsFile(env))], Raised(FileNotFound)))
            && (snapshot.Some? && ProviderCollections(provider, snapshot.value).Failure? ==>
                  p == Plan([ReadSnapshot(Discovery.OpendapCollectionsFile(env))],
                            Raised(ProviderCollections(provider, snapshot.value).error)))
  {
  }

  /** The file this script reads is the one the discovery script writes for
      the same environment. */
  lemma ReadsDiscoveryOutput(env: string, snapshot: Option<seq<SnapshotRecord>>, provider: string, create: Reply)
    requires LookupEnvironment(env).Some?
    ensures Opendap.ValidateEnvironment(env) == Success(env)
    ensures MakeOpendapAssociations(provider, env, snapshot, create).actions[0]
            == ReadSnapshot(Discovery.OpendapCollectionsFile(Lower(env)))
  {
    assert Lower("uat") == "uat" && Lower("prod") == "prod";
  }
}
