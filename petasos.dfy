/** The collaborators the core hands its records to: hierarchical names
    (FDN/RDN), topic tokens, units of work (UoW), the audit broker and the
    deployment-topology store. Their internals are not part of this model;
    each is reduced to what the core relies on. */
module Petasos {
  import opened Wrappers

  /** The processing outcome carried by a unit of work. */
  datatype ProcessingOutcome = NotStarted | Success | Failed

  /** The type of one segment of a hierarchical name. The dataset kinds come
      from the topic-type enumeration, Workshop and Wup from the node-element
      type enumeration; OtherType stands for any segment type above them. */
  datatype RdnType =
    | DatasetDefiner | DatasetCategory | DatasetSubcategory | DatasetResource
    | Workshop | Wup
    | OtherType(name: string)

  /** A relative distinguished name: one typed, named segment. */
  datatype RDN = RDN(rdnType: RdnType, value: string)

  /** A fully distinguished name: the segments from the root down. Its token
      is represented by the segment sequence itself. */
  type FDN = seq<RDN>

  /** The (type, version) classification of a payload. BuiltToken(t, v) is the
      token the topic-ID builder returns for resource type t and version v;
      FdnToken is a token whose identifier is set explicitly. */
  datatype TopicToken =
    | BuiltToken(resourceType: string, version: string)
    | FdnToken(identifier: FDN, version: string)

  /** A UoW payload: the payload string and its topic token. */
  datatype Payload = Payload(content: string, topic: TopicToken)

  /** The identifier of a topology node, built from an FDN token. */
  datatype NodeId = NodeId(fdn: FDN)

  /** A work-unit-processor identifier, built from a node identifier. */
  datatype WupId = WupId(node: NodeId)

  /** A unit of work: one ingress payload, the egress payloads added so far,
      and the processing outcome. */
  class UoW {
    var ingress: Payload
    var egress: seq<Payload>
    var outcome: ProcessingOutcome

    constructor (payload: Payload)
      ensures ingress == payload && egress == [] && outcome == NotStarted
    {
      ingress := payload;
      egress := [];
      outcome := NotStarted;
    }

    method SetProcessingOutcome(o: ProcessingOutcome)
      modifies this
      ensures outcome == o
      ensures ingress == old(ingress) && egress == old(egress)
    {
      outcome := o;
    }

    /** getEgressContent().addPayloadElement(p) */
    method AddEgressPayload(p: Payload)
      modifies this
      ensures egress == old(egress) + [p]
      ensures ingress == old(ingress) && outcome == old(outcome)
    {
      egress := egress + [p];
    }
  }

  /** The broker's opaque record of one audited step; getActualUoW() gives
      back the unit of work it was made for. */
  class AuditTrailEntry {
    const uow: UoW

    constructor (u: UoW)
      ensures uow == u
    {
      uow := u;
    }
  }

  /** One call to the broker's transactionAuditEntry, as it was made. */
  datatype BrokerCall = BrokerCall(
    wup: Option<WupId>,
    actionName: string,
    uow: UoW,
    parent: Option<AuditTrailEntry>)

  /** The audit broker, reduced to an append-only log of its calls. */
  class AuditBroker {
    var calls: seq<BrokerCall>

    constructor ()
      ensures calls == []
    {
      calls := [];
    }

    /** Records the call and returns a new entry holding the given unit of
        work. */
    method TransactionAuditEntry(wup: Option<WupId>, actionName: string, uow: UoW, parent: Option<AuditTrailEntry>)
      returns (entry: AuditTrailEntry)
      modifies this
      ensures calls == old(calls) + [BrokerCall(wup, actionName, uow, parent)]
      ensures fresh(entry) && entry.uow == uow
    {
      entry := new AuditTrailEntry(uow);
      calls := calls + [BrokerCall(wup, actionName, uow, parent)];
    }
  }

  datatype ConcurrencyMode = ConcurrencyMode(name: string)
  datatype ResilienceMode = ResilienceMode(name: string)
  datatype FunctionToken = FunctionToken(name: string)

  /** A deployment-topology node; every reference-typed attribute may be
      unset. */
  datatype NodeElement = NodeElement(
    version: Option<string>,
    instanceId: Option<NodeId>,
    concurrency: Option<ConcurrencyMode>,
    resilience: Option<ResilienceMode>,
    inPlace: bool,
    containingElement: Option<NodeId>,
    functionToken: Option<FunctionToken>)

  /** A freshly constructed NodeElement: nothing set. */
  const EmptyNode: NodeElement := NodeElement(None, None, None, None, false, None, None)

  /** The deployment-topology store: nodes by identifier, and the log of
      registrations made. */
  class TopologyStore {
    var nodes: map<NodeId, NodeElement>
    var registered: seq<NodeElement>

    constructor (initial: map<NodeId, NodeElement>)
      ensures nodes == initial && registered == []
    {
      nodes := initial;
      registered := [];
    }

    /** getNode: the node stored under `id`, or None (null) when there is none. */
    method GetNode(id: NodeId) returns (n: Option<NodeElement>)
      ensures id in nodes <==> n.Some?
      ensures n.Some? ==> n.value == nodes[id]
    {
      n := if id in nodes then Some(nodes[id]) else None;
    }

    /** registerNode: logs the registration and stores the node under its
        own instance identifier. */
    method RegisterNode(n: NodeElement)
      requires n.instanceId.Some?
      modifies this
      ensures registered == old(registered) + [n]
      ensures nodes == old(nodes)[n.instanceId.value := n]
    {
      registered := registered + [n];
      nodes := nodes[n.instanceId.value := n];
    }
  }
}
