/** The gatekeeper base of a source-of-truth accessor: its one-time
    registration in the deployment topology, the audit transactions it opens
    and closes around each access, the human-readable summaries of searches,
    and the single-resource search-set bundle. */
module Gatekeeper {
  import opened Wrappers
  import opened Text
  import opened Fhir
  import opened Petasos
  import opened SoTConduitAudit

  // ---------------------------------------------------------------------
  // Search criteria summary (the string built by beginSearchTransaction)
  // ---------------------------------------------------------------------

  /** One search parameter: the property's name and the value's toString(). */
  datatype Criterion = Criterion(name: string, value: string)

  function PairText(c: Criterion): string
  {
    c.name + "-->" + c.value
  }

  /** The rendered pairs, in order. */
  function PairTexts(cs: seq<Criterion>): (r: seq<string>)
    ensures |r| == |cs|
  {
    if cs == [] then [] else PairTexts(cs[..|cs| - 1]) + [PairText(cs[|cs| - 1])]
  }

  /** Every pair, each followed by "," when `comma` holds. */
  function CriteriaPairs(cs: seq<Criterion>, comma: bool): string
  {
    if cs == [] then ""
    else CriteriaPairs(cs[..|cs| - 1], comma) + PairText(cs[|cs| - 1]) + (if comma then "," else "")
  }

  /** The search summary. The element counter is never decremented, so with
      more than one criterion every pair, the last one included, is followed
      by a comma. */
  function SearchCriteriaText(cs: seq<Criterion>): (r: string)
    ensures "Search Criteria(" <= r
    ensures r[|r| - 1] == ')'
  {
    if |cs| == 0 then "Search Criteria(empty)"
    else "Search Criteria(" + CriteriaPairs(cs, |cs| > 1) + ")"
  }

  /** The loop of beginSearchTransaction over the parameter map, whose entries
      are given in the map's iteration order. */
  method SearchCriteriaSummary(parameterSet: seq<Criterion>) returns (searchSummary: string)
    ensures searchSummary == SearchCriteriaText(parameterSet)
  {
    searchSummary := "Search Criteria(";
    if |parameterSet| == 0 {
      searchSummary := searchSummary + "empty)";
    } else {
      var remainingElements := |parameterSet|;
      for i := 0 to |parameterSet|
        invariant remainingElements == |parameterSet|
        invariant searchSummary == "Search Criteria(" + CriteriaPairs(parameterSet[..i], remainingElements > 1)
      {
        var property := parameterSet[i];
        searchSummary := searchSummary + property.name + "-->" + property.value;
        if remainingElements > 1 {
          searchSummary := searchSummary + ",";
        }
        assert parameterSet[..i + 1][..i] == parameterSet[..i];
      }
      assert parameterSet[..|parameterSet|] == parameterSet;
      searchSummary := searchSummary + ")";
    }
  }

  /** Against the comma-separated list: the pairs joined by the separator,
      plus one more separator after the last pair. */
  lemma {:induction false} CriteriaPairsJoin(cs: seq<Criterion>, comma: bool)
    requires |cs| >= 1
    ensures CriteriaPairs(cs, comma) == Join(PairTexts(cs), if comma then "," else "") + (if comma then "," else "")
  {
    var sep := if comma then "," else "";
    var n := |cs|;
    var init := cs[..n - 1];
    if n == 1 {
      assert init == [];
      assert PairTexts(cs) == [PairText(cs[0])];
    } else {
      CriteriaPairsJoin(init, comma);
      var parts := PairTexts(cs);
      assert parts[..n - 1] == PairTexts(init);
      assert parts[n - 1] == PairText(cs[n - 1]);
    }
  }

  /** An empty map renders as "Search Criteria(empty)"; one criterion renders
      with no comma. */
  lemma SearchCriteriaSmall(c: Criterion)
    ensures SearchCriteriaText([]) == "Search Criteria(empty)"
    ensures SearchCriteriaText([c]) == "Search Criteria(" + c.name + "-->" + c.value + ")"
  {
    assert [c][..0] == [];
    assert CriteriaPairs([c], false) == PairText(c);
  }

  /** With more than one criterion the summary is the comma-separated pairs
      followed by a trailing ",)". */
  lemma SearchCriteriaTrailingComma(cs: seq<Criterion>)
    requires |cs| > 1
    ensures SearchCriteriaText(cs) == "Search Criteria(" + Join(PairTexts(cs), ",") + ",)"
    ensures SearchCriteriaText(cs)[|SearchCriteriaText(cs)| - 2..] == ",)"
  {
    CriteriaPairsJoin(cs, true);
  }

  /** Two criteria: a comma follows each pair, so the summary ends ",)". */
  lemma SearchCriteriaTwo(c1: Criterion, c2: Criterion)
    ensures SearchCriteriaText([c1, c2]) == "Search Criteria(" + PairText(c1) + "," + PairText(c2) + ",)"
  {
    var cs := [c1, c2];
    assert cs[..1] == [c1];
    assert cs[..1][..0] == [];
    assert CriteriaPairs(cs[..1], true) == PairText(c1) + ",";
  }

  // ---------------------------------------------------------------------
  // Search result summary (buildSearchResultString)
  // ---------------------------------------------------------------------

  const NO_ID_PLACEHOLDER: string := "[Resource Has No Id]"

  /** Every entry holds a resource. */
  predicate HasResources(es: seq<BundleEntry>)
  {
    forall i :: 0 <= i < |es| ==> es[i].resource.Some?
  }

  /** An entry's id, or the placeholder when its resource has none. */
  function EntryLabel(e: BundleEntry): string
    requires e.resource.Some?
  {
    if e.resource.value.id.Some? then e.resource.value.id.value else NO_ID_PLACEHOLDER
  }

  function EntryLabels(es: seq<BundleEntry>): (r: seq<string>)
    requires HasResources(es)
    ensures |r| == |es|
  {
    if es == [] then [] else EntryLabels(es[..|es| - 1]) + [EntryLabel(es[|es| - 1])]
  }

  /** The entry part of the summary: entry k (from 0) is followed by ", "
      exactly when the counter, total - k, is still above 1. */
  function EntriesText(es: seq<BundleEntry>, total: int): string
    requires HasResources(es)
  {
    if es == [] then ""
    else EntriesText(es[..|es| - 1], total) + EntryLabel(es[|es| - 1])
         + (if total - (|es| - 1) > 1 then ", " else "")
  }

  function ResultHeader(total: nat): string
  {
    "Search Succeeded: Result Count = " + NatToString(total) + ": Entries --> "
  }

  /** The summary of a search result. */
  function SearchResultText(searchResult: Option<Bundle>): (r: string)
    requires searchResult.Some? && searchResult.value.total != 0 ==> HasResources(searchResult.value.entries)
    ensures searchResult.None? ==> r == "Search Failed"
    ensures searchResult.Some? ==> "Search Succeeded: Result Count = " <= r
  {
    match searchResult
    case None => "Search Failed"
    case Some(b) =>
      if b.total == 0 then "Search Succeeded: Result Count = 0"
      else ResultHeader(b.total) + EntriesText(b.entries, b.total)
  }

  /** buildSearchResultString. An entry without a resource would be
      dereferenced, so every entry must hold one once the loop is reached. */
  method BuildSearchResultString(searchResult: Option<Bundle>) returns (resultString: string)
    requires searchResult.Some? && searchResult.value.total != 0 ==> HasResources(searchResult.value.entries)
    ensures resultString == SearchResultText(searchResult)
  {
    if searchResult.None? {
      return "Search Failed";
    }
    var total := searchResult.value.total;
    var resultCount: int := total;
    if resultCount == 0 {
      return "Search Succeeded: Result Count = 0";
    }
    resultString := "Search Succeeded: Result Count = " + NatToString(total) + ": Entries --> ";
    ghost var header := ResultHeader(total);
    var entries := searchResult.value.entries;
    assert entries[..0] == [];
    assert resultString == header + EntriesText(entries[..0], total);
    for i := 0 to |entries|
      invariant resultCount == total - i
      invariant HasResources(entries[..i])
      invariant resultString == header + EntriesText(entries[..i], total)
    {
      ghost var before := resultString;
      var currentResource := entries[i].resource.value;
      var entryText: string;
      if currentResource.id.Some? {
        entryText := currentResource.id.value;
      } else {
        entryText := NO_ID_PLACEHOLDER;
      }
      resultString := resultString + entryText;
      var separator := "";
      if resultCount > 1 {
        separator := ", ";
      }
      resultString := resultString + separator;
      resultCount := resultCount - 1;
      assert entryText == EntryLabel(entries[i]);
      assert separator == if total - i > 1 then ", " else "";
      EntriesTextStep(entries, i, total);
      AppendAssoc(header, EntriesText(entries[..i], total), entryText, separator);
    }
    assert entries[..|entries|] == entries;
  }

  lemma AppendAssoc(a: string, b: string, c: string, d: string)
    ensures a + b + c + d == a + (b + c + d)
  {
  }

  /** One more loop iteration extends the entry part by entry i. */
  lemma EntriesTextStep(es: seq<BundleEntry>, i: nat, total: int)
    requires i < |es| && HasResources(es)
    ensures HasResources(es[..i]) && HasResources(es[..i + 1])
    ensures EntriesText(es[..i + 1], total) ==
            EntriesText(es[..i], total) + EntryLabel(es[i]) + (if total - i > 1 then ", " else "")
  {
    assert es[..i + 1][..i] == es[..i];
  }

  /** When the total is at least the number of entries, the entries are the
      ", "-joined labels, with one more ", " only when the total exceeds the
      number of entries. */
  lemma {:induction false} EntriesTextJoin(es: seq<BundleEntry>, total: int)
    requires HasResources(es)
    requires 1 <= |es| <= total
    ensures EntriesText(es, total) == Join(EntryLabels(es), ", ") + (if |es| < total then ", " else "")
  {
    var n := |es|;
    var init := es[..n - 1];
    if n == 1 {
      assert init == [];
      assert EntryLabels(es) == [EntryLabel(es[0])];
    } else {
      EntriesTextJoin(init, total);
      var labels := EntryLabels(es);
      assert labels[..n - 1] == EntryLabels(init);
      assert labels[n - 1] == EntryLabel(es[n - 1]);
    }
  }

  /** When the total equals the number of entries there is no trailing
      separator: the summary lists the labels separated by ", ". */
  lemma SearchResultCountMatches(b: Bundle)
    requires HasResources(b.entries)
    requires b.total == |b.entries| > 0
    ensures SearchResultText(Some(b)) == ResultHeader(b.total) + Join(EntryLabels(b.entries), ", ")
  {
    EntriesTextJoin(b.entries, b.total);
  }

  /** A failed search, and any bundle whose total is 0: its entries, even
      entries without a resource, are not looked at. */
  lemma SearchResultNoEntries(b: Bundle)
    requires b.total == 0
    ensures SearchResultText(None) == "Search Failed"
    ensures SearchResultText(Some(b)) == "Search Succeeded: Result Count = 0"
  {
  }

  /** The header for a count of 2. */
  lemma ResultHeaderTwo()
    ensures ResultHeader(2) == "Search Succeeded: Result Count = 2: Entries --> "
  {
    assert NatToString(2) == "2";
  }

  /** Two identified entries under a matching total: the ids separated by
      ", ", with no trailing separator. */
  lemma SearchResultTwoEntries(a: Resource, b: Resource, x: string, y: string)
    requires a.id == Some(x) && b.id == Some(y)
    ensures SearchResultText(Some(Bundle(Some(SearchSet), 2, [BundleEntry(Some(a), None), BundleEntry(Some(b), None)], None)))
            == "Search Succeeded: Result Count = 2: Entries --> " + x + ", " + y
  {
    ResultHeaderTwo();
    var ab := [BundleEntry(Some(a), None), BundleEntry(Some(b), None)];
    assert ab[..1] == [BundleEntry(Some(a), None)];
    assert ab[..1][..0] == [];
    assert EntriesText(ab[..1], 2) == x + ", ";
  }

  /** An entry whose resource has no id is listed by the placeholder. */
  lemma SearchResultAnonymousEntry(anon: Resource)
    requires anon.id == None
    ensures SearchResultText(Some(Bundle(Some(SearchSet), 1, [BundleEntry(Some(anon), None)], None)))
            == ResultHeader(1) + "[Resource Has No Id]"
  {
    var es := [BundleEntry(Some(anon), None)];
    assert es[..0] == [];
    assert EntriesText(es, 1) == NO_ID_PLACEHOLDER;
  }

  /** A total below the number of entries: the later ids run together. */
  lemma SearchResultTotalBelowEntries(a: Resource, b: Resource, x: string, y: string)
    requires a.id == Some(x) && b.id == Some(y)
    ensures SearchResultText(Some(Bundle(Some(SearchSet), 1, [BundleEntry(Some(a), None), BundleEntry(Some(b), None)], None)))
            == ResultHeader(1) + x + y
  {
    var ab := [BundleEntry(Some(a), None), BundleEntry(Some(b), None)];
    assert ab[..1] == [BundleEntry(Some(a), None)];
    assert ab[..1][..0] == [];
    assert EntriesText(ab[..1], 1) == x;
  }

  /** A total above the number of entries: a separator trails. */
  lemma SearchResultTotalAboveEntries(a: Resource, b: Resource, x: string, y: string)
    requires a.id == Some(x) && b.id == Some(y)
    ensures SearchResultText(Some(Bundle(Some(SearchSet), 3, [BundleEntry(Some(a), None), BundleEntry(Some(b), None)], None)))
            == ResultHeader(3) + x + ", " + y + ", "
  {
    var ab := [BundleEntry(Some(a), None), BundleEntry(Some(b), None)];
    assert ab[..1] == [BundleEntry(Some(a), None)];
    assert ab[..1][..0] == [];
    assert EntriesText(ab[..1], 3) == x + ", ";
  }

  // ---------------------------------------------------------------------
  // Single-resource bundle (wrapIntoBundle)
  // ---------------------------------------------------------------------

  /** wrapIntoBundle: a search-set bundle whose only entry holds the resource
      as a MATCH with score 1, stamped with `now`. Its total is never set,
      so it reads as 0. */
  method WrapIntoBundle(resource: Resource, now: Instant) returns (fhirBundle: Bundle)
    ensures |fhirBundle.entries| == 1
    ensures fhirBundle.entries[0].resource == Some(resource)
    ensures fhirBundle.entries[0].search == Some(EntrySearch(Some(Match), Some(1)))
    ensures fhirBundle.bundleType == Some(SearchSet)
    ensures fhirBundle.timestamp == Some(now)
    ensures fhirBundle.total == 0
  {
    var bundleEntry := BundleEntry(None, None);
    bundleEntry := bundleEntry.(resource := Some(resource));
    var searchComponent := EntrySearch(None, None);
    searchComponent := searchComponent.(mode := Some(Match));
    searchComponent := searchComponent.(score := Some(1));
    bundleEntry := bundleEntry.(search := Some(searchComponent));
    fhirBundle := EmptyBundle;
    fhirBundle := fhirBundle.(entries := fhirBundle.entries + [bundleEntry]);
    fhirBundle := fhirBundle.(bundleType := Some(SearchSet));
    fhirBundle := fhirBundle.(timestamp := Some(now));
  }

  /** A wrapped resource summarised as a search result: the bundle holds one
      entry, but its total is 0, so the summary reports a count of 0 and does
      not list the resource. */
  method WrappedResourceSummary(resource: Resource, now: Instant) returns (fhirBundle: Bundle, summary: string)
    ensures |fhirBundle.entries| == 1 && fhirBundle.entries[0].resource == Some(resource)
    ensures summary == "Search Succeeded: Result Count = 0"
  {
    fhirBundle := WrapIntoBundle(resource, now);
    summary := BuildSearchResultString(Some(fhirBundle));
    SearchResultNoEntries(fhirBundle);
  }

  // ---------------------------------------------------------------------
  // Accessor identity (specifyNode)
  // ---------------------------------------------------------------------

  const ACCESSOR_PREFIX: string := "Accessor-"

  /** The workshop's name: the plant's name with the edge-workshop segment. */
  function WorkshopFdn(plantFdn: FDN, edgeWorkshop: string): (r: FDN)
    ensures |r| == |plantFdn| + 1 && r[..|plantFdn|] == plantFdn
  {
    plantFdn + [RDN(Workshop, edgeWorkshop)]
  }

  /** The accessor's name: the workshop's name with an "Accessor-" segment. */
  function AccessorFdn(workshopFdn: FDN, accessorName: string): (r: FDN)
    ensures |r| == |workshopFdn| + 1 && r[..|workshopFdn|] == workshopFdn
    ensures r[|workshopFdn|].rdnType == Wup
  {
    workshopFdn + [RDN(Wup, ACCESSOR_PREFIX + accessorName)]
  }

  /** The node specifyNode registers: it carries the accessor's version, the
      WORKSHOP's identifier as its instance identifier, the workshop's
      concurrency and resilience modes, is in place, and is contained in the
      workshop's own instance identifier. No function token is set. */
  function AccessorNode(version: string, workshopId: NodeId, workshopNode: NodeElement): NodeElement
  {
    NodeElement(Some(version), Some(workshopId), workshopNode.concurrency, workshopNode.resilience,
                true, workshopNode.instanceId, None)
  }

  /** The accessor's name is the plant's name followed by exactly two
      segments, the edge workshop and "Accessor-" + the resource type name;
      the workshop's name is its parent. */
  lemma AccessorFdnShape(plantFdn: FDN, edgeWorkshop: string, accessorName: string)
    ensures var a := AccessorFdn(WorkshopFdn(plantFdn, edgeWorkshop), accessorName);
      && |a| == |plantFdn| + 2
      && a[..|plantFdn|] == plantFdn
      && a[|plantFdn|] == RDN(Workshop, edgeWorkshop)
      && a[|plantFdn| + 1] == RDN(Wup, "Accessor-" + accessorName)
      && a[..|a| - 1] == WorkshopFdn(plantFdn, edgeWorkshop)
  {
  }

  /** Different resource type names give different accessor names under the
      same workshop. */
  lemma AccessorFdnInjective(workshopFdn: FDN, name1: string, name2: string)
    requires AccessorFdn(workshopFdn, name1) == AccessorFdn(workshopFdn, name2)
    ensures name1 == name2
  {
    var a := AccessorFdn(workshopFdn, name1);
    assert a[|workshopFdn|].value == ACCESSOR_PREFIX + name1;
    assert AccessorFdn(workshopFdn, name2)[|workshopFdn|].value == ACCESSOR_PREFIX + name2;
    assert name1 == (ACCESSOR_PREFIX + name1)[|ACCESSOR_PREFIX|..];
    assert name2 == (ACCESSOR_PREFIX + name2)[|ACCESSOR_PREFIX|..];
  }

  /** The registered node does not carry the accessor's own name: its
      instance identifier is the workshop's, one segment shorter. */
  lemma AccessorNodeIsNotNamedAfterAccessor(plantFdn: FDN, edgeWorkshop: string, accessorName: string,
                                            version: string, workshopNode: NodeElement)
    ensures var w := NodeId(WorkshopFdn(plantFdn, edgeWorkshop));
      AccessorNode(version, w, workshopNode).instanceId != Some(NodeId(AccessorFdn(w.fdn, accessorName)))
  {
    var w := WorkshopFdn(plantFdn, edgeWorkshop);
    assert |AccessorFdn(w, accessorName)| == |w| + 1;
  }

  // ---------------------------------------------------------------------
  // The gatekeeper
  // ---------------------------------------------------------------------

  /** SoTConduitGatekeeperBase. The subclass hooks (resource type name and
      version), the edge-workshop name and the opaque string producers are
      fixed at construction. */
  class GatekeeperBase {
    /** specifyAccessorResourceTypeName(), also getResourceTypeName() */
    const accessorName: string
    /** specifyAccessorResourceTypeVersion() */
    const version: string
    /** DefaultWorkshopSetEnum.EDGE_WORKSHOP.getWorkshop() */
    const edgeWorkshop: string
    const topologyProxy: TopologyStore
    const auditEntryManager: AuditEntryManager
    /** virtualDBKeyManagement.generatePrintableInformationFromIdentifier */
    const printableIdentifier: Identifier -> string
    /** Identifier.toString() */
    const identifierText: Identifier -> string
    /** IdType.asStringValue() */
    const idText: IdType -> string

    var accessorFunctionToken: Option<FunctionToken>
    var accessorIdentifier: Option<WupId>
    var node: Option<NodeElement>
    var isInitialised: bool

    /** Before initialisation nothing is set; afterwards the node is set and
        the identifier and function token are the node's. */
    ghost predicate Valid()
      reads this
    {
      && (isInitialised <==> node.Some?)
      && (!isInitialised ==> accessorIdentifier.None? && accessorFunctionToken.None?)
      && (node.Some? ==>
            && node.value.instanceId.Some?
            && accessorIdentifier == Some(WupId(node.value.instanceId.value))
            && accessorFunctionToken == node.value.functionToken)
    }

    constructor (accessorName: string, version: string, edgeWorkshop: string,
                 topologyProxy: TopologyStore, auditEntryManager: AuditEntryManager,
                 printableIdentifier: Identifier -> string, identifierText: Identifier -> string,
                 idText: IdType -> string)
      ensures Valid() && !isInitialised
      ensures this.accessorName == accessorName && this.version == version && this.edgeWorkshop == edgeWorkshop
      ensures this.topologyProxy == topologyProxy && this.auditEntryManager == auditEntryManager
      ensures this.printableIdentifier == printableIdentifier && this.identifierText == identifierText
      ensures this.idText == idText
    {
      this.accessorName := accessorName;
      this.version := version;
      this.edgeWorkshop := edgeWorkshop;
      this.topologyProxy := topologyProxy;
      this.auditEntryManager := auditEntryManager;
      this.printableIdentifier := printableIdentifier;
      this.identifierText := identifierText;
      this.idText := idText;
      accessorFunctionToken := None;
      accessorIdentifier := None;
      node := None;
      isInitialised := false;
    }

    /** The workshop's identifier under the given plant. */
    function WorkshopId(plantNodeId: NodeId): NodeId
      reads this
    {
      NodeId(WorkshopFdn(plantNodeId.fdn, edgeWorkshop))
    }

    /** initialise: the first call registers the accessor node once and
        records it; every later call changes nothing. The plant's identifier
        is the one the processing plant reports after initialisePlant(). */
    method Initialise(plantNodeId: NodeId)
      requires Valid()
      requires !isInitialised ==> WorkshopId(plantNodeId) in topologyProxy.nodes
      modifies this, topologyProxy
      ensures Valid() && isInitialised
      ensures old(isInitialised) ==> unchanged(this) && unchanged(topologyProxy)
      ensures !old(isInitialised) ==>
        var workshopId := WorkshopId(plantNodeId);
        var accessor := AccessorNode(version, workshopId, old(topologyProxy.nodes)[workshopId]);
        && node == Some(accessor)
        && accessorIdentifier == Some(WupId(workshopId))
        && accessorFunctionToken == None
        && topologyProxy.registered == old(topologyProxy.registered) + [accessor]
        && topologyProxy.nodes == old(topologyProxy.nodes)[workshopId := accessor]
    {
      if !isInitialised {
        isInitialised := true;
        var accessor, accessorInstanceIdentifier := SpecifyNode(plantNodeId);
        node := Some(accessor);
        accessorFunctionToken := accessor.functionToken;
        accessorIdentifier := Some(WupId(accessor.instanceId.value));
      }
    }

    /** specifyNode: names the workshop and the accessor under the plant,
        builds the accessor node from the workshop node and registers it. The
        accessor's own identifier is only logged by the source; it is returned
        here as a ghost. */
    method SpecifyNode(plantNodeId: NodeId) returns (accessor: NodeElement, ghost accessorInstanceIdentifier: NodeId)
      requires WorkshopId(plantNodeId) in topologyProxy.nodes
      modifies topologyProxy
      ensures accessorInstanceIdentifier == NodeId(AccessorFdn(WorkshopFdn(plantNodeId.fdn, edgeWorkshop), accessorName))
      ensures accessor == AccessorNode(version, WorkshopId(plantNodeId), old(topologyProxy.nodes)[WorkshopId(plantNodeId)])
      ensures topologyProxy.registered == old(topologyProxy.registered) + [accessor]
      ensures topologyProxy.nodes == old(topologyProxy.nodes)[WorkshopId(plantNodeId) := accessor]
    {
      var workshopFDN: FDN := plantNodeId.fdn;
      workshopFDN := workshopFDN + [RDN(Workshop, edgeWorkshop)];
      var workshopId := NodeId(workshopFDN);
      var found := topologyProxy.GetNode(workshopId);
      var workshopNode := found.value;
      var accessorInstanceFDN: FDN := workshopFDN;
      accessorInstanceFDN := accessorInstanceFDN + [RDN(Wup, "Accessor-" + accessorName)];
      accessorInstanceIdentifier := NodeId(accessorInstanceFDN);
      accessor := EmptyNode;
      accessor := accessor.(version := Some(version));
      accessor := accessor.(instanceId := Some(workshopId));
      accessor := accessor.(concurrency := workshopNode.concurrency);
      accessor := accessor.(resilience := workshopNode.resilience);
      accessor := accessor.(inPlace := true);
      accessor := accessor.(containingElement := workshopNode.instanceId);
      topologyProxy.RegisterNode(accessor);
    }

    /** beginSearchTransaction: opens a unit of work whose payload is the
        criteria summary, with no resource. */
    method BeginSearchTransaction(parameterSet: seq<Criterion>, action: Action) returns (parcelEntry: AuditTrailEntry)
      modifies auditEntryManager.broker
      ensures fresh(parcelEntry.uow)
      ensures parcelEntry.uow.ingress ==
              Payload(BeginLabel(action) + SearchCriteriaText(parameterSet), BuiltToken(accessorName, FHIR_VERSION))
      ensures parcelEntry.uow.outcome == NotStarted && parcelEntry.uow.egress == []
      ensures auditEntryManager.broker.calls == old(auditEntryManager.broker.calls) +
              [BrokerCall(accessorIdentifier, ActionName(action), parcelEntry.uow, None)]
    {
      var searchSummary := SearchCriteriaSummary(parameterSet);
      parcelEntry := auditEntryManager.BeginTransaction(searchSummary, accessorName, None, action, accessorIdentifier, version);
    }

    /** beginTransaction(IdType, ...): the summary is the id's string value. */
    method BeginTransactionById(id: IdType, fhirResource: Option<Resource>, action: Action) returns (parcelEntry: AuditTrailEntry)
      modifies auditEntryManager.broker
      ensures fresh(parcelEntry.uow)
      ensures (parcelEntry.uow.ingress, parcelEntry.uow.outcome) ==
              OpeningState(auditEntryManager.encode, idText(id), accessorName, fhirResource, action)
      ensures parcelEntry.uow.egress == []
      ensures auditEntryManager.broker.calls == old(auditEntryManager.broker.calls) +
              [BrokerCall(accessorIdentifier, ActionName(action), parcelEntry.uow, None)]
    {
      var resourceKey := idText(id);
      parcelEntry := auditEntryManager.BeginTransaction(resourceKey, accessorName, fhirResource, action, accessorIdentifier, version);
    }

    /** beginTransaction(Identifier, ...): the summary is the identifier's
        printable business-key form. */
    method BeginTransactionByIdentifier(resourceIdentifier: Identifier, fhirResource: Option<Resource>, action: Action)
      returns (parcelEntry: AuditTrailEntry)
      modifies auditEntryManager.broker
      ensures fresh(parcelEntry.uow)
      ensures (parcelEntry.uow.ingress, parcelEntry.uow.outcome) ==
              OpeningState(auditEntryManager.encode, printableIdentifier(resourceIdentifier), accessorName, fhirResource, action)
      ensures parcelEntry.uow.egress == []
      ensures auditEntryManager.broker.calls == old(auditEntryManager.broker.calls) +
              [BrokerCall(accessorIdentifier, ActionName(action), parcelEntry.uow, None)]
    {
      var resourceKey := printableIdentifier(resourceIdentifier);
      parcelEntry := auditEntryManager.BeginTransaction(resourceKey, accessorName, fhirResource, action, accessorIdentifier, version);
    }

    /** endSearchTransaction: closes with the search-result summary and no
        resource, so it never raises; the returned-resource count is not
        used. */
    method EndSearchTransaction(resultSet: Option<Bundle>, returnedResourceCount: int, action: Action, success: bool,
                                startingTransaction: AuditTrailEntry)
      requires resultSet.Some? && resultSet.value.total != 0 ==> HasResources(resultSet.value.entries)
      modifies startingTransaction.uow, auditEntryManager.broker
      ensures startingTransaction.uow.ingress == old(startingTransaction.uow.ingress)
      ensures startingTransaction.uow.outcome == (if success then Success else Failed)
      ensures startingTransaction.uow.egress == old(startingTransaction.uow.egress) +
              (if success then [Payload(EndLabel(action) + SearchResultText(resultSet), BuiltToken(accessorName, version))] else [])
      ensures auditEntryManager.broker.calls == old(auditEntryManager.broker.calls) +
              [BrokerCall(accessorIdentifier, ActionName(action), startingTransaction.uow, Some(startingTransaction))]
    {
      var searchAnswerCount := BuildSearchResultString(resultSet);
      var status := auditEntryManager.EndTransaction(searchAnswerCount, accessorName, None, action, success,
                                                     startingTransaction, accessorIdentifier, version);
    }

    /** endTransaction(Identifier, ...): the summary is the identifier's
        toString(), not the printable form the opening step used. */
    method EndTransactionByIdentifier(resourceIdentifier: Identifier, fhirResource: Option<Resource>, action: Action,
                                      success: bool, startingTransaction: AuditTrailEntry)
      returns (status: Outcome<string>)
      modifies startingTransaction.uow, auditEntryManager.broker
      ensures var closing := ClosingPayload(auditEntryManager.encode, identifierText(resourceIdentifier), accessorName,
                                            fhirResource, action, version);
        && (status.Fail? <==> success && closing.Err?)
        && (status.Fail? ==> unchanged(startingTransaction.uow)
                             && auditEntryManager.broker.calls == old(auditEntryManager.broker.calls))
        && (status.Pass? ==>
              && startingTransaction.uow.ingress == old(startingTransaction.uow.ingress)
              && startingTransaction.uow.outcome == (if success then Success else Failed)
              && startingTransaction.uow.egress == old(startingTransaction.uow.egress) +
                   (if success then [closing.value] else [])
              && auditEntryManager.broker.calls == old(auditEntryManager.broker.calls) +
                   [BrokerCall(accessorIdentifier, ActionName(action), startingTransaction.uow, Some(startingTransaction))])
    {
      var resourceKey := identifierText(resourceIdentifier);
      status := auditEntryManager.EndTransaction(resourceKey, accessorName, fhirResource, action, success,
                                                 startingTransaction, accessorIdentifier, version);
    }

    /** endTransaction(IdType, ...): the summary is the id's string value. */
    method EndTransactionById(id: IdType, fhirResource: Option<Resource>, action: Action,
                              success: bool, startingTransaction: AuditTrailEntry)
      returns (status: Outcome<string>)
      modifies startingTransaction.uow, auditEntryManager.broker
      ensures var closing := ClosingPayload(auditEntryManager.encode, idText(id), accessorName, fhirResource, action, version);
        && (status.Fail? <==> success && closing.Err?)
        && (status.Fail? ==> unchanged(startingTransaction.uow)
                             && auditEntryManager.broker.calls == old(auditEntryManager.broker.calls))
        && (status.Pass? ==>
              && startingTransaction.uow.ingress == old(startingTransaction.uow.ingress)
              && startingTransaction.uow.outcome == (if success then Success else Failed)
              && startingTransaction.uow.egress == old(startingTransaction.uow.egress) +
                   (if success then [closing.value] else [])
              && auditEntryManager.broker.calls == old(auditEntryManager.broker.calls) +
                   [BrokerCall(accessorIdentifier, ActionName(action), startingTransaction.uow, Some(startingTransaction))])
    {
      var resourceKey := idText(id);
      status := auditEntryManager.EndTransaction(resourceKey, accessorName, fhirResource, action, success,
                                                 startingTransaction, accessorIdentifier, version);
    }
  }
}
