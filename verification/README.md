# OPeNDAP discovery and association scripts, modelled in Dafny

The repository holds three operator-run Python scripts that work against NASA's
metadata catalog (CMR) and its GraphQL front end:

- `get_collections_with_opendap.py` pages through the cloud-hosted collections
  (100 per page, first granule only) until the reported total is reached,
  three requests have failed, or a request raises. It keeps the collections whose first granule
  lists a RelatedUrl of type `USE SERVICE API` and subtype `OPENDAP DATA`
  whose URL contains the environment's Hyrax host. It then saves
  `{short_name, version, concept_id}` for each kept collection.
- `manage_associations.py` reads that saved snapshot and keeps one provider's
  concept IDs (case-insensitive suffix match). It then asks the catalog, in
  one request, to associate them with the environment's OPeNDAP service
  record.
- `mirror_associations.py` reads the collections associated with a service
  record and keeps one provider's IDs. It associates them with the OPeNDAP
  record and, on request, removes them from the original record.

The model is pure and functional. JSON members that may be absent or `null`
are `Field` values (`Missing | Null | Present`), and every Python raise is a
`Failure` carrying the exception class. The outside world is replaced by
values:

- The GraphQL endpoint is a finite script of replies.
- The snapshot files are their decoded contents (`None` when the file is
  missing).
- The create, remove and search replies are inputs.
- What a run does to the outside world is the ordered list of effects
  (`Discovery.Effect`) or actions (`Associations.Action`) it issues.

Files, one module each:

- `values.dfy`: `Option`, `Field`, `Error`, `Result`, `Completion`.
- `text.dfy`: ASCII `lower`, `endswith`, substring test.
- `seqs.dfy`: order-preserving filter and its characterisation, map, first raising element.
- `catalog.dfy`: collections, granules, RelatedUrls, saved records.
- `opendap.dfy`: environment table and check, RelatedUrl extraction, OPeNDAP predicate, filter, projection, list helpers.
- `pagination.dfy`: the paginated fetch loop.
- `discovery.dfy`: the discovery entry point.
- `associations.dfy`: association tables, provider test, payload, actions.
- `mirror.dfy`: mirror_associations.py.
- `manage.dfy`: manage_associations.py.

Where the code and its documentation disagree, the model follows the code.
Points worth knowing:

- A first granule whose `relatedUrls` is explicitly `null` makes the OPeNDAP
  predicate raise `TypeError`, because `any` iterates `None`. A granule that
  simply lacks the member gives "no URLs". The function's docstring promises
  an empty list in both cases.
- `any` short-circuits. A RelatedUrl with the OPeNDAP type and subtype and a
  `null` url raises only if no earlier URL matched.
- Only error statuses count against the fetch's budget of three. An `ok`
  reply whose body has no readable `data.collections` (for example a
  GraphQL error body with `"data": null`) and an exception from the HTTP
  library both escape the loop. The run then ends before the raw list is
  saved.
- The discovery script lower-cases the environment name before checking it.
  The association scripts look the raw name up in their tables, so `PROD`
  passes discovery and is refused by both association scripts.
- When the service search returns no items, `mirror_associations.py` raises
  a `str`, which Python 3 turns into a `TypeError`. The model raises
  `TypeError`.
- The mirror script's remove request is issued only when removal was asked
  for *and* the create reply was a success. A failed create raises before the
  remove is reached.

## Model

| member | source | states |
|---|---|---|
| Opendap.ValidateEnvironment | get_collections_with_opendap.py:294-297 | A name is accepted iff its lower-case form is `sit`, `uat` or `prod`, otherwise `ValueError`; an accepted name is returned lower-cased and always has a row in the parameter table |
| Opendap.ValidateEnvironmentMatchesTable | get_collections_with_opendap.py:42-58 | The names accepted unchanged are exactly the keys of `environment_parameters`; `PROD` is accepted as `prod` |
| Opendap.HyraxSubstringsNonEmpty | get_collections_with_opendap.py:46-56 | Every environment's Hyrax host substring is non-empty |
| Opendap.RelatedUrls | get_collections_with_opendap.py:187-206 | The extraction raises (`AttributeError`) iff `granules` is present but not an object, and never otherwise |
| Opendap.RelatedUrlsAbsent | get_collections_with_opendap.py:193-206 | `granules` absent, `null`, without `items`, with `null` or empty `items`, or a first granule without `relatedUrls`: the result is `[]` |
| Opendap.RelatedUrlsFirstGranuleOnly | get_collections_with_opendap.py:203-206 | Only the first granule is read: later granules never change the result, which is that granule's `relatedUrls` (Python `None` when it is `null`) |
| Opendap.AnyOpendapUrl | get_collections_with_opendap.py:217-222 | With no raising entry, the result is true iff some URL has the service type, the OPeNDAP subtype and a url containing the host; a match before any raising entry gives true; false means no entry matches or raises; a raise is a `TypeError` caused by an OPeNDAP-typed entry with a `null` url |
| Opendap.AnyOpendapUrlRaisesFirst | get_collections_with_opendap.py:217-221 | An OPeNDAP-typed entry with a `null` url, reached before any match, makes the whole test raise `TypeError`, whatever follows it |
| Opendap.UrlText | get_collections_with_opendap.py:220 | The url text is `''` when the entry has no `url` member, the url itself when it has one, and Python's `None` exactly when the member is `null` |
| Opendap.Matches | get_collections_with_opendap.py:218-220 | An entry meeting all three conditions has the service type, the OPeNDAP subtype and a non-`null` url; with a non-empty Hyrax substring it must carry a `url` member; for a typed entry with a url, it matches iff the url contains the substring |
| Opendap.Raises | get_collections_with_opendap.py:218-220 | The third condition raises exactly when the first two hold and the url text is `None`; such an entry matches no substring |
| Opendap.HasOpendap | get_collections_with_opendap.py:209-222 | An unknown environment raises `AttributeError`; a non-object `granules` raises `AttributeError`; a `null` URL list raises `TypeError`; a collection listing no URLs is never OPeNDAP; otherwise the answer, or the raise, is exactly that of the `any` over the listed URLs with the environment's Hyrax substring |
| Opendap.HasOpendapIff | get_collections_with_opendap.py:216-222 | For a collection whose URLs do not raise, the predicate holds exactly when some URL meets all three conditions |
| Opendap.SingleUrlFlips | get_collections_with_opendap.py:216-222 | A one-URL collection meeting all three conditions is OPeNDAP; changing the type, the subtype or the url alone (or dropping the url, read as `''`) makes it not |
| Opendap.FilterForOpendapGranules | get_collections_with_opendap.py:225-237 | Succeeds iff the predicate raises on no collection, otherwise raises the first collection's error; on success the result is an order-preserving subsequence of the input, no longer than it, keeping each collection iff the predicate holds, with its multiplicity |
| Opendap.FilterForOpendapIdempotent | get_collections_with_opendap.py:233-237 | Filtering the filtered list returns it unchanged |
| Opendap.Format | get_collections_with_opendap.py:240-249 | The saved record carries the collection's short name, version and concept ID |
| Opendap.FormatAll | get_collections_with_opendap.py:283-286 | One record per collection, same length and order, each the projection of the collection at the same position |
| Opendap.SnapshotDrawnFromRaw | get_collections_with_opendap.py:312-318 | Every saved record is the projection of some fetched collection on which the predicate holds |
| Opendap.ShortNamesForPocloud | get_collections_with_opendap.py:323-338 | Every returned short name belongs to a record whose concept ID ends with `POCLOUD`, and every such record's short name is returned; never longer than the input; empty when no concept ID ends so |
| Opendap.ShortNamesForPocloudSingle | get_collections_with_opendap.py:335-337 | A single record gives its short name when its concept ID ends in `POCLOUD`, and nothing otherwise |
| Opendap.ShortNamesForPocloudCaseSensitive | get_collections_with_opendap.py:336 | The suffix test is case-sensitive: `C1-POCLOUD` is selected, `C1-pocloud` is not |
| Opendap.ShortNamesForPocloudConcat | get_collections_with_opendap.py:334-338 | The selection over a concatenation is the concatenation of the selections, so order is preserved |
| Opendap.ElementsNotInFirst | get_collections_with_opendap.py:387-396 | The elements of the second list absent from the first, in order and with repetitions; empty exactly when the script reports that every element is present |
| Seqs.Filter | get_collections_with_opendap.py:233-237 | A list comprehension with a condition: an order-preserving subsequence keeping every accepted element with its multiplicity and no rejected one |
| Seqs.FilteredFromIsFilter | get_collections_with_opendap.py:233-237 | Subsequence plus per-element counts determine the comprehension's result uniquely |
| Pagination.QueryCollections | get_collections_with_opendap.py:140-184 | With n requests made: the result is the concatenation, in order, of the items of the successful replies among the first n; the first request has no cursor; after a success the next request carries its cursor; after an error status or a raise the cursor is unchanged; the guard held before every request; the run stops exactly when a reply raised, the errors reach 3, or the items reach the last reported count; at least one request is made; at most 3 errors are consumed; the fetch raises exactly when its last reply raised, with that reply's exception |
| Pagination.Step | get_collections_with_opendap.py:154-182 | One pass makes one request carrying the current cursor and never drops collected items; only a page extends the list, moves the count and the cursor; only an error status is counted; a raising reply leaves the loop with its exception |
| Pagination.Run | get_collections_with_opendap.py:153-182 | Requests only grow, one per reply consumed; collected items are never lost; a stopped loop makes no request; a loop still wanting replies has consumed the whole script; the error count never passes 3 |
| Pagination.StepReflects | get_collections_with_opendap.py:154-182 | One pass moves the loop state from the prefix description of the replies consumed so far to that of the prefix one reply longer |
| Pagination.RunFrom | get_collections_with_opendap.py:153-182 | The loop consumes replies while the stopping condition over the consumed prefix is false and halts at the first prefix where it is true |
| Pagination.AllErrorsGiveUp | get_collections_with_opendap.py:147-184 | If every reply is an error, exactly three requests are made, none with a cursor, and `[]` is returned without raising |
| Pagination.ThreePages | get_collections_with_opendap.py:153-177 | Pages of 100, 100 and 50 under a total of 250 give three requests with cursors none, `c1`, `c2` and 250 items, the pages concatenated in order |
| Pagination.BrokenReplyRaises | get_collections_with_opendap.py:154-168 | After one page, a reply that raises ends the fetch at once with that exception, after two requests (no cursor, then `c1`), although the count is not reached and no error status was seen |
| Discovery.GetCollectionsWithOpendapUrls | get_collections_with_opendap.py:292-318 | An unaccepted name raises `ValueError` with no effect at all; otherwise the first effect is the token request; a successful run ends by saving exactly the returned records under the lower-cased environment's file, and these are the projections, in order, of the raw collections the predicate accepts, none of which made it raise |
| Discovery.FilterAndSave | get_collections_with_opendap.py:312-318 | Succeeds iff the predicate raises on no raw collection; a raise saves nothing more and ends the run with the filter's exception; on success exactly the returned records are saved, once, under the environment's file, and they are the projections of the accepted collections in order |
| Discovery.AllCollectionsFile | get_collections_with_opendap.py:265 | The raw snapshot is named `all_collections_` + environment + `.json`, and the environment can be read back from the name |
| Discovery.OpendapCollectionsFile | get_collections_with_opendap.py:281 | The OPeNDAP snapshot is named `opendap_collections_` + environment + `.json`, and the environment can be read back from the name |
| Discovery.SnapshotFilesDistinct | get_collections_with_opendap.py:265-281 | The raw and OPeNDAP snapshots never share a name, and two environments never share a snapshot of either kind |
| Discovery.RawCollections | get_collections_with_opendap.py:302-309 | A file source yields its contents (none when the file is missing); the catalog yields a list exactly when the consumed replies reach the stopping condition without a raise, and the list is the items of the consumed pages in order |
| Discovery.Queries | get_collections_with_opendap.py:154-158 | One query per request, to the environment's GraphQL endpoint with the page size, carrying that request's cursor |
| Discovery.CatalogRunEffectOrder | get_collections_with_opendap.py:299-318 | A catalog run whose fetch completes and whose filter raises on no collection succeeds, having issued: token request, the queries in order, save of all fetched collections, save of the filtered records |
| Discovery.FileRunEffectOrder | get_collections_with_opendap.py:299-318 | A run from an existing raw snapshot file whose filter raises on no collection succeeds, having issued: token request, one read, save of the filtered records; nothing is queried |
| Discovery.MissingFileRaises | get_collections_with_opendap.py:309 | A missing raw snapshot file raises after the read and saves nothing |
| Discovery.DiscoveryAllErrors | get_collections_with_opendap.py:302-318 | When every query fails the run still completes and saves an empty snapshot after three queries |
| Discovery.CatalogFilterRaises | get_collections_with_opendap.py:302-315 | After a fetch that completes without raising, a raise in the filter ends the run with the filter's exception; the effects are the token request, the queries and the raw save, and no OPeNDAP snapshot is written |
| Discovery.FileFilterRaises | get_collections_with_opendap.py:296-315 | With a snapshot file, a raise in the filter ends the run with the filter's exception right after the token request and the read |
| Discovery.CatalogRaiseSavesNothing | get_collections_with_opendap.py:302-307 | A fetch that raises ends the run with that exception right after the last query: the raw list is not saved and no snapshot is written |
| Associations.LookupEnvironment | mirror_associations.py:161-165 | The environment is accepted iff it is exactly `uat` or `prod`, and then yields that environment's CMR URL and OPeNDAP concept ID |
| Associations.LookupEnvironmentIsExact | manage_associations.py:134-138 | `prod` and `uat` are accepted; `PROD` and `sit` are refused |
| Associations.ProviderMatches | mirror_associations.py:95 | The suffix test on lower-cased forms: the empty provider keeps every ID, a provider longer than the ID keeps none, and on lower-case inputs it is plain `endswith` |
| Associations.ProviderMatchesIgnoresCase | mirror_associations.py:78-95 | The provider test gives the same answer for any ASCII-case variant of the ID or of the provider |
| Associations.ProviderFilterExample | mirror_associations.py:91-96 | From `C1-POCLOUD`, `C2-OTHER`, `C3-POCLOUD`, the provider `POCLOUD` in any case selects exactly `C1-POCLOUD`, `C3-POCLOUD` |
| Associations.Payload | mirror_associations.py:111-112 | One `{concept_id}` entry per ID, same length and order |
| Associations.PayloadRoundTrip | mirror_associations.py:134-135 | Reading the IDs back from a payload gives the original list, and building a payload from a payload's IDs gives the payload |
| Associations.PayloadInjective | manage_associations.py:111-112 | Two payloads are equal exactly when their ID lists are |
| Associations.Check | mirror_associations.py:118 | `raise_for_status`: the script carries on iff the reply is accepted; a rejected reply raises its status |
| MirrorAssociations.ListedCollections | mirror_associations.py:94 | The listed IDs are the record's `collections` member when both it and `associations` are present, and `[]` otherwise |
| MirrorAssociations.AssociatedCollections | mirror_associations.py:68-98 | Empty search items raise; a `null` `associations` or `collections` raises; otherwise the result is exactly the first record's associated IDs whose lower-case form ends with the lower-case provider, in their original order |
| MirrorAssociations.AssociatedCollectionsDefaults | mirror_associations.py:94 | No `associations`, or associations without `collections`, yields `[]` rather than an error; later search items are never read |
| MirrorAssociations.MirrorServiceAssociations | mirror_associations.py:144-181 | An unaccepted environment raises before any action; otherwise the search is first; at most three actions; a completed run issued two, or three when removal was asked for, and every create or remove reply it saw was accepted |
| MirrorAssociations.MirrorRequestOrder | mirror_associations.py:167-181 | The second action is the create against the environment's OPeNDAP record with exactly the provider-filtered list; a third action exists iff removal was asked for and the create succeeded, and it is the remove against the source record with the same list; a rejected create raises its status; after an accepted create the run completes when no removal was asked for, and otherwise ends as the remove reply says, a rejected remove raising its status |
| MirrorAssociations.MirrorStopsAfterSearch | mirror_associations.py:80-98 | A failed or unusable search stops the run after the search, with no association request: a failed search raises `HTTPError` with its status, an unusable result raises the exception of the provider filter |
| ManageAssociations.PresentIds | manage_associations.py:93-98 | The concept IDs present in the snapshot: an ID is listed iff some record holds it, and the list is no longer than the snapshot |
| ManageAssociations.PresentIdsConcat | manage_associations.py:93-96 | The IDs of a concatenation are those of each part, one after the other, so snapshot order and repetitions are kept |
| ManageAssociations.PresentIdsSingle | manage_associations.py:94-97 | One record contributes its ID exactly when it has one |
| ManageAssociations.RecordError | manage_associations.py:94-97 | A `null` ID raises `AttributeError`; an absent ID raises `KeyError` exactly when the provider is empty; a present ID never raises |
| ManageAssociations.ProviderCollections | manage_associations.py:82-98 | Succeeds iff no record raises; otherwise it raises the error of the first record that does; on success the result is the order-preserving selection of the snapshot's IDs ending with the provider (ignoring case), no longer than the snapshot, each from some record |
| ManageAssociations.MissingConceptIds | manage_associations.py:94-97 | Records without `concept_id` are skipped for a non-empty provider; with an empty provider they make the lookup raise `KeyError` |
| ManageAssociations.SavedSnapshotFeedsFilter | manage_associations.py:74-98 | Read back from what the discovery script saves, the filter never raises, for any provider, and selects the saved concept IDs by suffix in saved order |
| ManageAssociations.MakeOpendapAssociations | manage_associations.py:121-152 | An unaccepted environment raises before the snapshot is read; otherwise reading the snapshot is the first action; at most two actions; a completed run issued both |
| ManageAssociations.MakeAssociationsSingleCreate | manage_associations.py:140-151 | When no snapshot record makes the filter raise, exactly one request follows the read: a create against the environment's OPeNDAP record carrying exactly the provider-filtered IDs; the run ends exactly as the create reply's status check does, so it completes iff the create is accepted |
| ManageAssociations.MakeAssociationsStopsAfterRead | manage_associations.py:74-97 | A missing snapshot file raises `FileNotFound`, and a record that makes the provider filter raise raises that error; either way the read is the only action and no create is issued |
| ManageAssociations.ReadsDiscoveryOutput | manage_associations.py:74 | The file read for `uat`/`prod` is the one the discovery script writes for the same environment |

## Left out

- `get_edl_token` is network I/O against the identity provider. It appears only as the `TokenRequest` effect; the token value is not modelled.
- `get_authenticated_session` builds a library session object and has no logic.
- HTTP requests are not sent. Replies are inputs (scripted pages, search replies, create and remove replies). What the catalog does with associations is outside this code.
- In the association scripts an exception from the HTTP library itself (no reply at all) is not told apart from a rejected reply: both end the run at that request with a raise. The discovery fetch does tell them apart (`Broken`).
- Failures of the token request in `get_edl_token` (an error status, or no `access_token`) are not modelled; the run always gets past it.
- File and JSON I/O (`get_all_collections_from_file`, `save_all_collections`, the file write in `save_opendap_collections`, `read_json_list`, `read_text_file_to_list`, `write_list`, `read_all_collections`) is not modelled. Reads are their decoded contents, or `None` for a missing file; writes are effects. JSON encoding belongs to the standard library, so there is no file round-trip property.
- The GraphQL query text and all `print` logging are not modelled. `find_elements_in_second_list` is modelled by the list it prints and by which message it chooses.
- `str.lower()` is ASCII case folding only; full Unicode lower-casing is not modelled.
- Pagination termination is not claimed. The source loops forever if the server keeps returning empty pages under the count. The model stops when the finite script runs out and reports that as incomplete (`ScriptExhausted`), which is not a Python behaviour.
- A GraphQL body without readable `data.collections`, `count`, `items` or `cursor` is modelled only by the exception it raises (`Broken`); which member was missing is not recorded.
- JSON values outside the query's schema are not modelled. These include:
  - a collection or granule entry that is not an object;
  - a missing or `null` `shortName`, `version` or `conceptId`;
  - `items` that is not a list, or a `null` page `items`;
  - a non-integer `count`;
  - RelatedUrl entries that are not objects;
  - non-string association IDs;
  - a service search reply without `items` or `meta`.
- The `print` of the short name in the `except` branch of `get_collection_related_urls` is not modelled; the branch re-raises, and the model raises `AttributeError`.
