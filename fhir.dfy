/** The FHIR R4 values the core inspects, reduced to the parts it reads or
    writes. */
module Fhir {
  import opened Wrappers

  /** A FHIR resource: its id and the rest of its content, which only the
      encoder looks at. `id` is `Some(s)` exactly when the resource reports
      that it has an id, so `s` is taken to be non-blank. */
  datatype Resource = Resource(resourceType: string, id: Option<string>, body: string)

  datatype SearchEntryMode = Match | Include | EntryOutcome

  datatype BundleType =
    | Document | Message | Transaction | TransactionResponse
    | Batch | BatchResponse | History | SearchSet | Collection

  /** Bundle.entry.search: mode and score, both unset on a fresh component. */
  datatype EntrySearch = EntrySearch(mode: Option<SearchEntryMode>, score: Option<int>)

  datatype BundleEntry = BundleEntry(resource: Option<Resource>, search: Option<EntrySearch>)

  /** A point in time (the value of Date.from(Instant.now())). */
  type Instant = int

  /** A Bundle; `total` reads as 0 when it was never set. */
  datatype Bundle = Bundle(
    bundleType: Option<BundleType>,
    total: nat,
    entries: seq<BundleEntry>,
    timestamp: Option<Instant>)

  /** A freshly constructed Bundle: nothing set. */
  const EmptyBundle: Bundle := Bundle(None, 0, [], None)

  /** A resource id as HAPI's IdType carries it. */
  datatype IdType = IdType(value: string)

  /** A FHIR Identifier (system and value). */
  datatype Identifier = Identifier(system: string, value: string)
}
