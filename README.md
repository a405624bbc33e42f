# SoT conduit audit layer — a Dafny model

This project models the audit layer that sits in front of a source-of-truth
store in the pegacorn SoT conduit. Every access to a FHIR resource (get,
create, update, delete, search) is wrapped in an audited transaction.
`beginTransaction` opens a unit of work (UoW) with an ingress payload, a
topic token and an outcome, and hands it to the audit broker. `endTransaction`
takes the same UoW back from the broker's entry, records the result and
outcome, and hands it to the broker again with the opening entry as parent.
The gatekeeper base class registers its accessor node in the deployment
topology once. It renders search criteria and search results as audit
summaries, and wraps a single resource into a search-set bundle.

Modules, one per component:

- `Wrappers` (wrappers.dfy): `Option` (nullable references), `Result` and `Outcome` (exceptions).
- `Text` (text.dfy): decimal rendering of a count, and `Join`, the reference definition of a separated list.
- `Fhir` (fhir.dfy): the resource, bundle, entry, id and identifier values the core reads and writes.
- `Petasos` (petasos.dfy): the collaborators. These are FDN/RDN names, topic tokens, payloads and the
  `UoW` class, whose outcome and egress content change in place. The broker is an append-only log of its
  calls (`AuditBroker.calls`). The topology store is a map of nodes plus a log of registrations.
- `SoTConduitAudit` (audit.dfy): the `AuditEntryManager` class and the functions that specify it.
- `Gatekeeper` (gatekeeper.dfy): the `GatekeeperBase` class, the summary renderers and the bundle wrapper.

Both source files are imperative, and so is the model. `BeginTransaction` follows the switch and the
try/catch with local flags. `EndTransaction` mutates the shared `UoW` object. The renderers are loops
with the source's counters. `Initialise` updates the gatekeeper's fields under the `isInitialised`
guard. Each method is proved against a specification function: `OpeningState`, `ClosingPayload`,
`SearchCriteriaText`, `SearchResultText` and `AccessorNode`. Lemmas relate those functions to
independent references, such as `Join` for separated lists.

The model follows the code as written, including these behaviours:

- Criteria summary: `remainingElements` is never decremented. With two or more criteria, every pair is
  followed by a comma, and the summary ends in ",)". One criterion has no comma.
- Result summary: ", " follows an entry while the counter, starting at the bundle's total, is above 1.
  When the total matches the number of entries there is no trailing separator. A smaller total runs the
  later ids together. A larger total leaves a trailing ", ".
- `beginTransaction` always classifies the ingress payload with FHIR version "4.0.1". Its `version`
  argument is unused.
- SEARCH has no begin label.
- An encoding failure in `beginTransaction` is caught. The UoW opens FAILED, carrying the error text
  under the reserved error topic and without the action label.
- `endTransaction(success = true)` sets SUCCESS even on a UoW that opened FAILED.
- An encoding failure in `endTransaction` is not caught. It leaves the method before anything changes.
- The registered accessor node's instance ID is the workshop ID, not the accessor's own FDN.
- `wrapIntoBundle` never sets the bundle's total, so the total reads as 0.

## Model

| member | source | states |
|---|---|---|
| SoTConduitAudit.AuditEntryManager.BeginTransaction | pegacorn-sotconduit-processingplant/src/main/java/net/fhirfactory/pegacorn/sotconduit/audit/SoTConduitAuditEntryManager.java:70-143 | Builds a fresh UoW whose ingress payload and outcome are `OpeningState` of the inputs, with no egress payloads. Appends exactly one broker call carrying that UoW, a null parent and the action name, and returns the broker's entry. No exception escapes, and `version` plays no part. |
| SoTConduitAudit.OpeningStateCases | pegacorn-sotconduit-processingplant/src/main/java/net/fhirfactory/pegacorn/sotconduit/audit/SoTConduitAuditEntryManager.java:76-139 | The opening outcome is FAILED iff a resource is given and fails to encode, and NOTSTARTED otherwise. On failure the payload is "Error encoding content --> " + the error text under the error topic AETHER/DataTypes/Error/JSONConversionErrorMessage, version 1.0.0, with no label. Otherwise it is the action label + the encoding (or, with no resource, the caller's summary), with topic (resourceType, "4.0.1"). |
| SoTConduitAudit.BeginLabel | pegacorn-sotconduit-processingplant/src/main/java/net/fhirfactory/pegacorn/sotconduit/audit/SoTConduitAuditEntryManager.java:77-94 | The opening label: "Action: Get --> " for REVIEW, "Action: Create --> ", "Action: Delete --> ", "Action: Update --> ", and "" for SEARCH, which has no case in the switch. The label is empty exactly for SEARCH, and every other label starts with "Action: ". |
| SoTConduitAudit.EndLabel | pegacorn-sotconduit-processingplant/src/main/java/net/fhirfactory/pegacorn/sotconduit/audit/SoTConduitAuditEntryManager.java:150-171 | The result label: "Action: Get, Result --> " for REVIEW, then Update, Create, Delete and "Action: Search, Result --> ". Every result label starts with "Action: ", and SEARCH has one too. |
| SoTConduitAudit.OpeningState | pegacorn-sotconduit-processingplant/src/main/java/net/fhirfactory/pegacorn/sotconduit/audit/SoTConduitAuditEntryManager.java:76-139 | The specification `BeginTransaction` is proved against: the ingress payload and outcome. A unit of work never opens SUCCESS. A FAILED opening carries the error topic. Any other opening carries topic (resourceType, "4.0.1") and starts with the action's opening label. |
| SoTConduitAudit.ClosingPayload | pegacorn-sotconduit-processingplant/src/main/java/net/fhirfactory/pegacorn/sotconduit/audit/SoTConduitAuditEntryManager.java:149-182 | The specification `EndTransaction` is proved against: the egress payload or the encoder's exception. Without a resource it never raises. A computed payload carries topic (resourceType, version) and starts with the action's result label. |
| SoTConduitAudit.AuditEntryManager.EndTransaction | pegacorn-sotconduit-processingplant/src/main/java/net/fhirfactory/pegacorn/sotconduit/audit/SoTConduitAuditEntryManager.java:145-193 | When success is false: sets FAILED, leaves ingress and egress unchanged, and appends one broker call with the starting entry as parent and the same UoW. When success is true and the closing payload is computed: appends exactly that one egress payload, sets SUCCESS whatever the prior outcome, keeps ingress, and makes one broker call. When the encoder raises: returns the error and changes neither the UoW nor the broker log. |
| SoTConduitAudit.ClosingPayloadCases | pegacorn-sotconduit-processingplant/src/main/java/net/fhirfactory/pegacorn/sotconduit/audit/SoTConduitAuditEntryManager.java:149-182 | The closing step raises iff a resource is given and fails to encode, and it raises that error. Otherwise the egress payload is the result label + (the encoding if a resource is given, else the caller's string), with topic (resourceType, version). |
| SoTConduitAudit.LabelsIdentifyAction | pegacorn-sotconduit-processingplant/src/main/java/net/fhirfactory/pegacorn/sotconduit/audit/SoTConduitAuditEntryManager.java:77-94 | The result labels are pairwise distinct over the five actions. The begin labels are distinct too, and SEARCH is the only action whose begin label is empty. |
| SoTConduitAudit.AuditedAccess | pegacorn-sotconduit-processingplant/src/main/java/net/fhirfactory/pegacorn/sotconduit/audit/SoTConduitAuditEntryManager.java:70-193 | A begin followed by an end on the returned entry. The final outcome is SUCCESS iff success is true and the end step completed, even when the UoW opened FAILED. The egress then holds exactly the one closing payload, and the broker log grows by exactly two calls on the same UoW, the second with the first entry as parent. If the end step raises, the opening state and the single broker call are all that remain. |
| SoTConduitAudit.AuditEntryManager.constructor | pegacorn-sotconduit-processingplant/src/main/java/net/fhirfactory/pegacorn/sotconduit/audit/SoTConduitAuditEntryManager.java:62-68 | The manager holds the JSON encoder and the broker it is given. |
| Gatekeeper.CriteriaPairs | pegacorn-sotconduit-edge/src/main/java/net/fhirfactory/pegacorn/sotconduit/edge/answer/accessor/SoTConduitGatekeeperBase.java:110-115 | The pair loop's output: every "name-->value" pair in map order, each followed by "," when the flag holds. |
| Gatekeeper.SearchCriteriaText | pegacorn-sotconduit-edge/src/main/java/net/fhirfactory/pegacorn/sotconduit/edge/answer/accessor/SoTConduitGatekeeperBase.java:104-117 | The specification `SearchCriteriaSummary` is proved against. An empty map gives "Search Criteria(empty)". Otherwise it is "Search Criteria(" + the pairs + ")", with a comma after every pair exactly when there are two or more. Every summary starts with "Search Criteria(" and ends in ")". |
| Gatekeeper.SearchCriteriaSummary | pegacorn-sotconduit-edge/src/main/java/net/fhirfactory/pegacorn/sotconduit/edge/answer/accessor/SoTConduitGatekeeperBase.java:104-117 | The loop over the parameter map returns exactly `SearchCriteriaText`. `remainingElements` stays equal to the map's size throughout. |
| Gatekeeper.SearchCriteriaSmall | pegacorn-sotconduit-edge/src/main/java/net/fhirfactory/pegacorn/sotconduit/edge/answer/accessor/SoTConduitGatekeeperBase.java:104-116 | An empty map renders "Search Criteria(empty)". One criterion renders "Search Criteria(" + name + "-->" + value + ")", with no comma. |
| Gatekeeper.SearchCriteriaTrailingComma | pegacorn-sotconduit-edge/src/main/java/net/fhirfactory/pegacorn/sotconduit/edge/answer/accessor/SoTConduitGatekeeperBase.java:109-116 | With more than one criterion, the summary is "Search Criteria(" + the comma-joined pairs + ",)". It therefore ends in ",)". |
| Gatekeeper.CriteriaPairsJoin | pegacorn-sotconduit-edge/src/main/java/net/fhirfactory/pegacorn/sotconduit/edge/answer/accessor/SoTConduitGatekeeperBase.java:110-115 | The pair loop's output equals the pairs joined by the separator, followed by one more separator. |
| Gatekeeper.SearchCriteriaTwo | pegacorn-sotconduit-edge/src/main/java/net/fhirfactory/pegacorn/sotconduit/edge/answer/accessor/SoTConduitGatekeeperBase.java:109-116 | Two criteria render as "Search Criteria(" + pair1 + "," + pair2 + ",)". |
| Gatekeeper.EntriesText | pegacorn-sotconduit-edge/src/main/java/net/fhirfactory/pegacorn/sotconduit/edge/answer/accessor/SoTConduitGatekeeperBase.java:203-214 | The entry loop's output: each entry's id or "[Resource Has No Id]", with entry k followed by ", " exactly when total - k > 1. |
| Gatekeeper.SearchResultText | pegacorn-sotconduit-edge/src/main/java/net/fhirfactory/pegacorn/sotconduit/edge/answer/accessor/SoTConduitGatekeeperBase.java:194-216 | The specification `BuildSearchResultString` is proved against. A null bundle gives "Search Failed". A total of 0 gives "Search Succeeded: Result Count = 0". Otherwise it is the header with the total followed by the entry part. Every non-null result starts with "Search Succeeded: Result Count = ". |
| Gatekeeper.BuildSearchResultString | pegacorn-sotconduit-edge/src/main/java/net/fhirfactory/pegacorn/sotconduit/edge/answer/accessor/SoTConduitGatekeeperBase.java:194-216 | The loop returns exactly `SearchResultText`: "Search Failed" for a null bundle, "Search Succeeded: Result Count = 0" for total 0, and otherwise the header followed by each entry's id or "[Resource Has No Id]". The separator after entry k depends on total - k > 1. Every entry must hold a resource once the loop is reached. |
| Gatekeeper.EntriesTextJoin | pegacorn-sotconduit-edge/src/main/java/net/fhirfactory/pegacorn/sotconduit/edge/answer/accessor/SoTConduitGatekeeperBase.java:203-214 | When 1 <= number of entries <= total, the entry part is the ", "-joined labels. A trailing ", " appears only when the total exceeds the number of entries. |
| Gatekeeper.SearchResultCountMatches | pegacorn-sotconduit-edge/src/main/java/net/fhirfactory/pegacorn/sotconduit/edge/answer/accessor/SoTConduitGatekeeperBase.java:202-215 | When the total equals the number of entries: header + the ", "-joined labels, with no trailing separator. |
| Gatekeeper.SearchResultNoEntries | pegacorn-sotconduit-edge/src/main/java/net/fhirfactory/pegacorn/sotconduit/edge/answer/accessor/SoTConduitGatekeeperBase.java:195-201 | A null bundle gives "Search Failed". Every bundle whose total is 0 gives "Search Succeeded: Result Count = 0", whatever its entries hold. |
| Gatekeeper.SearchResultTwoEntries | pegacorn-sotconduit-edge/src/main/java/net/fhirfactory/pegacorn/sotconduit/edge/answer/accessor/SoTConduitGatekeeperBase.java:202-215 | Ids x, y with total 2 give exactly "Search Succeeded: Result Count = 2: Entries --> " + x + ", " + y. |
| Gatekeeper.SearchResultAnonymousEntry | pegacorn-sotconduit-edge/src/main/java/net/fhirfactory/pegacorn/sotconduit/edge/answer/accessor/SoTConduitGatekeeperBase.java:205-209 | A resource without an id is listed as "[Resource Has No Id]". |
| Gatekeeper.SearchResultTotalBelowEntries | pegacorn-sotconduit-edge/src/main/java/net/fhirfactory/pegacorn/sotconduit/edge/answer/accessor/SoTConduitGatekeeperBase.java:210-213 | Total 1 with two entries runs them together as header + x + y. |
| Gatekeeper.SearchResultTotalAboveEntries | pegacorn-sotconduit-edge/src/main/java/net/fhirfactory/pegacorn/sotconduit/edge/answer/accessor/SoTConduitGatekeeperBase.java:210-213 | Total 3 with two entries leaves a trailing separator: header + x + ", " + y + ", ". |
| Gatekeeper.WrapIntoBundle | pegacorn-sotconduit-edge/src/main/java/net/fhirfactory/pegacorn/sotconduit/edge/answer/accessor/SoTConduitGatekeeperBase.java:254-269 | The bundle has exactly one entry, which holds the resource with search mode MATCH and score 1. Its type is SEARCHSET and its timestamp is the given time. Its total is left unset, which reads as 0. |
| Gatekeeper.WrappedResourceSummary | pegacorn-sotconduit-edge/src/main/java/net/fhirfactory/pegacorn/sotconduit/edge/answer/accessor/SoTConduitGatekeeperBase.java:194-201 | A resource wrapped by `wrapIntoBundle` and then summarised by `buildSearchResultString` gives "Search Succeeded: Result Count = 0", although the bundle holds that one resource: the total is never set. |
| Gatekeeper.WorkshopFdn | pegacorn-sotconduit-edge/src/main/java/net/fhirfactory/pegacorn/sotconduit/edge/answer/accessor/SoTConduitGatekeeperBase.java:166-167 | The workshop's FDN is the plant's FDN extended by one segment, the edge workshop. |
| Gatekeeper.AccessorFdn | pegacorn-sotconduit-edge/src/main/java/net/fhirfactory/pegacorn/sotconduit/edge/answer/accessor/SoTConduitGatekeeperBase.java:171-172 | The accessor's FDN is the workshop's FDN extended by one WUP segment, "Accessor-" + the resource type name. |
| Gatekeeper.AccessorNode | pegacorn-sotconduit-edge/src/main/java/net/fhirfactory/pegacorn/sotconduit/edge/answer/accessor/SoTConduitGatekeeperBase.java:175-187 | The specification `SpecifyNode` is proved against. The node has the accessor version, the workshop ID as instance ID, the workshop node's concurrency and resilience modes, in-place set, the workshop node's instance ID as containing element, and no function token. |
| Gatekeeper.GatekeeperBase.WorkshopId | pegacorn-sotconduit-edge/src/main/java/net/fhirfactory/pegacorn/sotconduit/edge/answer/accessor/SoTConduitGatekeeperBase.java:166-168 | The node identifier of the edge workshop under the given plant, the key the workshop node is looked up under. |
| Gatekeeper.AccessorFdnShape | pegacorn-sotconduit-edge/src/main/java/net/fhirfactory/pegacorn/sotconduit/edge/answer/accessor/SoTConduitGatekeeperBase.java:166-174 | The accessor FDN is the plant FDN followed by exactly (WORKSHOP, edge workshop) and (WUP, "Accessor-" + name). Its parent is the workshop FDN. |
| Gatekeeper.AccessorFdnInjective | pegacorn-sotconduit-edge/src/main/java/net/fhirfactory/pegacorn/sotconduit/edge/answer/accessor/SoTConduitGatekeeperBase.java:172-173 | Under one workshop, different resource type names give different accessor FDNs. |
| Gatekeeper.AccessorNodeIsNotNamedAfterAccessor | pegacorn-sotconduit-edge/src/main/java/net/fhirfactory/pegacorn/sotconduit/edge/answer/accessor/SoTConduitGatekeeperBase.java:172-180 | The registered node's instance ID is the workshop ID, which is never the accessor's own FDN. |
| Gatekeeper.GatekeeperBase.SpecifyNode | pegacorn-sotconduit-edge/src/main/java/net/fhirfactory/pegacorn/sotconduit/edge/answer/accessor/SoTConduitGatekeeperBase.java:159-193 | Returns `AccessorNode`: version = the accessor version, instance ID = the workshop ID, concurrency and resilience modes copied from the stored workshop node, in-place = true, containing element = the workshop node's instance ID, no function token. Registers it exactly once. The ghost result is the accessor FDN. The workshop node must exist. |
| Gatekeeper.GatekeeperBase.Initialise | pegacorn-sotconduit-edge/src/main/java/net/fhirfactory/pegacorn/sotconduit/edge/answer/accessor/SoTConduitGatekeeperBase.java:85-96 | The first call sets `isInitialised` and records the node from `SpecifyNode`, registered exactly once. It sets `accessorIdentifier` = WupId(workshop ID) and leaves `accessorFunctionToken` unset. A later call changes neither the gatekeeper nor the topology store. `Valid()` is preserved. |
| Gatekeeper.GatekeeperBase.constructor | pegacorn-sotconduit-edge/src/main/java/net/fhirfactory/pegacorn/sotconduit/edge/answer/accessor/SoTConduitGatekeeperBase.java:47-51 | Starts uninitialised with no node, identifier or function token. It keeps the resource type name and version from the subclass hooks. |
| Gatekeeper.GatekeeperBase.BeginSearchTransaction | pegacorn-sotconduit-edge/src/main/java/net/fhirfactory/pegacorn/sotconduit/edge/answer/accessor/SoTConduitGatekeeperBase.java:103-120 | Opens a NOTSTARTED UoW whose ingress is the begin label + `SearchCriteriaText`, with topic (resource type name, "4.0.1"). Makes one broker call with the accessor identifier and no parent. |
| Gatekeeper.GatekeeperBase.BeginTransactionById | pegacorn-sotconduit-edge/src/main/java/net/fhirfactory/pegacorn/sotconduit/edge/answer/accessor/SoTConduitGatekeeperBase.java:122-126 | Opens with the id's string value as summary. The opening state is `OpeningState` of that summary and the resource. |
| Gatekeeper.GatekeeperBase.BeginTransactionByIdentifier | pegacorn-sotconduit-edge/src/main/java/net/fhirfactory/pegacorn/sotconduit/edge/answer/accessor/SoTConduitGatekeeperBase.java:128-132 | Opens with the identifier's printable business-key form as summary. |
| Gatekeeper.GatekeeperBase.EndSearchTransaction | pegacorn-sotconduit-edge/src/main/java/net/fhirfactory/pegacorn/sotconduit/edge/answer/accessor/SoTConduitGatekeeperBase.java:139-142 | Closes with the result summary and no resource, so it never raises. On success it appends end label + `SearchResultText` with topic (resource type name, accessor version) and sets SUCCESS. Otherwise it sets FAILED. It always makes one broker call with the starting entry as parent. The returned-resource count is unused. |
| Gatekeeper.GatekeeperBase.EndTransactionByIdentifier | pegacorn-sotconduit-edge/src/main/java/net/fhirfactory/pegacorn/sotconduit/edge/answer/accessor/SoTConduitGatekeeperBase.java:134-137 | Closes with a different producer (`identifierText`, the identifier's `toString()`) from the one used when opening (`printableIdentifier`). Raises iff success and the resource fails to encode. Otherwise the outcome and egress are set as in `EndTransaction`. |
| Gatekeeper.GatekeeperBase.EndTransactionById | pegacorn-sotconduit-edge/src/main/java/net/fhirfactory/pegacorn/sotconduit/edge/answer/accessor/SoTConduitGatekeeperBase.java:144-147 | Closes with the id's string value. Raises iff success and the resource fails to encode. |
| Petasos.AuditBroker.TransactionAuditEntry | pegacorn-sotconduit-processingplant/src/main/java/net/fhirfactory/pegacorn/sotconduit/audit/SoTConduitAuditEntryManager.java:140 | The broker appends exactly the call it receives to its log. It returns a fresh entry whose UoW is the one it was given. |
| Petasos.UoW.constructor | pegacorn-sotconduit-processingplant/src/main/java/net/fhirfactory/pegacorn/sotconduit/audit/SoTConduitAuditEntryManager.java:133-137 | `new UoW(payload)`: the payload is the ingress, there is no egress, and the outcome is NOTSTARTED until `setProcessingOutcome` sets it. |
| Petasos.UoW.SetProcessingOutcome | pegacorn-sotconduit-processingplant/src/main/java/net/fhirfactory/pegacorn/sotconduit/audit/SoTConduitAuditEntryManager.java:184 | Sets the outcome and nothing else. |
| Petasos.UoW.AddEgressPayload | pegacorn-sotconduit-processingplant/src/main/java/net/fhirfactory/pegacorn/sotconduit/audit/SoTConduitAuditEntryManager.java:183 | Appends one egress payload and nothing else. |
| Petasos.TopologyStore.GetNode | pegacorn-sotconduit-edge/src/main/java/net/fhirfactory/pegacorn/sotconduit/edge/answer/accessor/SoTConduitGatekeeperBase.java:170 | Returns the node stored under the identifier, or null (None) when there is none. |
| Petasos.TopologyStore.RegisterNode | pegacorn-sotconduit-edge/src/main/java/net/fhirfactory/pegacorn/sotconduit/edge/answer/accessor/SoTConduitGatekeeperBase.java:190 | Logs the registration and stores the node under its instance identifier. |

## Left out

- ResourceSoTProxyBase.java: the REST resource-provider binding. Its only logic is an `isInitialised` flag around `initialisePlant()`.
- JSON encoding: the HAPI parser is the encoder parameter `AuditEntryManager.encode`, a function returning the text or the exception's text. Building the parser (`FhirContext.forR4()` in the manager, `getJsonParser()` in the gatekeeper) is not modelled, nor is the null-parser log line.
- `processingPlant.initialisePlant()`: a call into code that is not part of this model, and it is not recorded. The plant's node identifier is `Initialise`'s parameter. A null plant identifier (which the source only logs) and a missing workshop node (which it dereferences) are excluded by `requires`.
- Exceptions inside `initialise`: because of those preconditions, the model has no path where `isInitialised` is set and `specifyNode` then fails.
- Broker internals: the broker is a call log. Its returned entry is a fresh object holding the UoW.
- `action.toString()`: the enum is not part of this model, so it is taken to be the constant's name ("REVIEW", ...).
- Topology store internals: the store is a map and a registration log. `registerNode` is taken to store a node under its own instance identifier.
- Opaque producers: `generatePrintableInformationFromIdentifier`, `Identifier.toString` and `IdType.asStringValue` are function-typed fields of `GatekeeperBase` fixed at construction. `createTopicToken(t, v)` is the symbolic token `BuiltToken(t, v)`. An FDN's token is the FDN itself.
- `DefaultWorkshopSetEnum.EDGE_WORKSHOP`'s string is not part of this model. It is the constructor parameter `edgeWorkshop`. The RDN type strings are symbolic constructors of `RdnType`.
- Subclass hooks (`specifyAccessorResourceTypeName`, `specifyAccessorResourceTypeVersion`): constructor parameters, taken to return the same value on every call. The other abstract hooks, the security-label factory and the job card (never set) are not modelled.
- Getters (lines 218-252 of the gatekeeper): the fields are readable directly.
- `Instant.now()` in `wrapIntoBundle`: the parameter `now`.
- Map iteration order: the parameter map is given as a sequence of (property name, value text) pairs, in the map's iteration order.
- Egress content: a sequence. The payload set's own internals are not part of this model.
- `UoW` construction: the initial outcome is taken to be NOTSTARTED. Both paths of `beginTransaction` overwrite it at once.
- UoWPayload, NodeElement, TopicToken and Bundle: values built field by field. The source's setter-built objects are not shared before they are handed on, so aliasing and update in place are not modelled for them.
- `NodeElement.getNodeFunctionToken()`: NodeElement is not part of this model. A freshly built node is taken to have no function token (`EmptyNode`), so `accessorFunctionToken` is left unset after `initialise`. Whether the real class derives a token from the node's other fields is not captured.
- Gatekeeper.BuildSearchResultString: an entry without a resource, in a bundle whose total is not 0, would raise a NullPointerException at line 205 of the gatekeeper. That path is excluded by the `requires` (`HasResources`) rather than modelled as an exception.
- Blank resource ids: `hasId()` is false for a blank id, and the source then prints "[Resource Has No Id]". The model reads `Resource.id == Some(s)` as `hasId()`, that is, `s` is non-blank. A blank id is written `None`, and blankness is not modelled.
- Integer width: the bundle total is a `nat`. Java int overflow of the total and of the counters does not arise for bundle sizes.
- Logging, CDI injection, `@PostConstruct` wiring, and concurrency. The source has no concurrency control.
