/** The collection records the GraphQL `Collections` query returns, and the
    three-field record the discovery script writes to its snapshot.
 */
module Catalog {
  import opened Values

  /** One RelatedUrl of a granule. `type` and `subtype` are only ever
      compared with string literals, so a missing, `null` or non-string
      member is `None`; `url` is used as the right operand of `in` and keeps
      all three states, because `null` raises there. */
  datatype RelatedUrl = RelatedUrl(urlType: Option<string>, subtype: Option<string>, url: Field<string>)

  /** A granule summary: only its `relatedUrls` member is ever read. */
  datatype Granule = Granule(relatedUrls: Field<seq<RelatedUrl>>)

  /** The `granules` member of a collection. A present value is either an
      object whose `items` is absent/`null` (`None`) or a list, or some value
      that is not an object at all (a list, string or number), on which
      `.get` raises. */
  datatype Granules =
    | NoGranules
    | NullGranules
    | NotAnObject
    | GranuleConnection(items: Option<seq<Granule>>)

  /** A collection as returned by the catalog (or read back from the raw
      snapshot). */
  datatype Collection = Collection(shortName: string, version: string, conceptId: string, granules: Granules)

  /** The persisted form `{short_name, version, concept_id}`. */
  datatype Record = Record(shortName: string, version: string, conceptId: string)
}
