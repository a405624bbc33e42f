/** The audit-transaction protocol of the source-of-truth conduit: opening a
    unit of work for an access operation, closing it with the operation's
    outcome, and handing each step to the audit broker. */
module SoTConduitAudit {
  import opened Wrappers
  import opened Petasos
  import opened Fhir

  /** The kinds of access operation that are audited. */
  datatype Action = Review | Create | Delete | Update | Search

  /** action.toString(), the enum constant's name. */
  function ActionName(a: Action): string
  {
    match a
    case Review => "REVIEW"
    case Create => "CREATE"
    case Delete => "DELETE"
    case Update => "UPDATE"
    case Search => "SEARCH"
  }

  /** The FHIR version every ingress payload is classified with. */
  const FHIR_VERSION: string := "4.0.1"

  /** Prefix of the ingress payload when the resource cannot be encoded. */
  const ENCODING_ERROR_PREFIX: string := "Error encoding content --> "

  /** The reserved classification of an encoding-error payload:
      AETHER / DataTypes / Error / JSONConversionErrorMessage, version 1.0.0. */
  const ErrorTopic: TopicToken := FdnToken(
    [ RDN(DatasetDefiner, "AETHER"), RDN(DatasetCategory, "DataTypes"),
      RDN(DatasetSubcategory, "Error"), RDN(DatasetResource, "JSONConversionErrorMessage") ],
    "1.0.0")

  /** The label put in front of the ingress payload. SEARCH has no case in
      the source's switch, so it gets no label. */
  function BeginLabel(a: Action): (r: string)
    ensures r == "" <==> a == Search
    ensures a != Search ==> "Action: " <= r
  {
    match a
    case Review => "Action: Get --> "
    case Create => "Action: Create --> "
    case Delete => "Action: Delete --> "
    case Update => "Action: Update --> "
    case Search => ""
  }

  /** The label put in front of the egress payload of a successful step. */
  function EndLabel(a: Action): (r: string)
    ensures "Action: " <= r
  {
    match a
    case Review => "Action: Get, Result --> "
    case Update => "Action: Update, Result --> "
    case Create => "Action: Create, Result --> "
    case Delete => "Action: Delete, Result --> "
    case Search => "Action: Search, Result --> "
  }

  /** The JSON encoder: the resource's text, or the text of the exception it
      raised. */
  type Encoder = Resource -> Result<string, string>

  /** The ingress payload and the outcome a unit of work is opened with. */
  function OpeningState(encode: Encoder, auditStringPayload: string, resourceType: string,
                        fhirResource: Option<Resource>, action: Action): (r: (Payload, ProcessingOutcome))
    ensures r.1 != Success
    ensures r.1 == Failed ==> r.0.topic == ErrorTopic
    ensures r.1 != Failed ==> r.0.topic == BuiltToken(resourceType, FHIR_VERSION) && BeginLabel(action) <= r.0.content
  {
    match fhirResource
    case None =>
      (Payload(BeginLabel(action) + auditStringPayload, BuiltToken(resourceType, FHIR_VERSION)), NotStarted)
    case Some(r) =>
      match encode(r)
      case Ok(s) => (Payload(BeginLabel(action) + s, BuiltToken(resourceType, FHIR_VERSION)), NotStarted)
      case Err(e) => (Payload(ENCODING_ERROR_PREFIX + e, ErrorTopic), Failed)
  }

  /** The egress payload a successful closing step appends, or the encoder's
      exception, which the closing step does not catch. */
  function ClosingPayload(encode: Encoder, auditEntryString: string, resourceType: string,
                          fhirResource: Option<Resource>, action: Action, version: string): (r: Result<Payload, string>)
    ensures r.Ok? ==> r.value.topic == BuiltToken(resourceType, version) && EndLabel(action) <= r.value.content
    ensures fhirResource.None? ==> r.Ok?
  {
    match fhirResource
    case None => Ok(Payload(EndLabel(action) + auditEntryString, BuiltToken(resourceType, version)))
    case Some(r) =>
      match encode(r)
      case Ok(s) => Ok(Payload(EndLabel(action) + s, BuiltToken(resourceType, version)))
      case Err(e) => Err(e)
  }

  /** An opening step fails exactly when there is a resource and it cannot be
      encoded; it then carries the exception text under the reserved error
      classification and without the action label. Otherwise the payload is
      the label followed by the encoding or, without a resource, the caller's
      summary, classified with FHIR version 4.0.1. */
  lemma OpeningStateCases(encode: Encoder, auditStringPayload: string, resourceType: string,
                          fhirResource: Option<Resource>, action: Action)
    ensures var (p, o) := OpeningState(encode, auditStringPayload, resourceType, fhirResource, action);
      && (o == Failed <==> fhirResource.Some? && encode(fhirResource.value).Err?)
      && (o != Failed ==> o == NotStarted && p.topic == BuiltToken(resourceType, "4.0.1"))
      && (o == Failed ==> p == Payload("Error encoding content --> " + encode(fhirResource.value).error, ErrorTopic))
      && (fhirResource.None? ==> p.content == BeginLabel(action) + auditStringPayload)
      && (fhirResource.Some? && encode(fhirResource.value).Ok? ==>
            p.content == BeginLabel(action) + encode(fhirResource.value).value)
  {
  }

  /** A closing step raises exactly when there is a resource and it cannot be
      encoded; otherwise its payload is the result label followed by the
      encoding or the caller's summary, classified with the caller's version. */
  lemma ClosingPayloadCases(encode: Encoder, auditEntryString: string, resourceType: string,
                            fhirResource: Option<Resource>, action: Action, version: string)
    ensures var c := ClosingPayload(encode, auditEntryString, resourceType, fhirResource, action, version);
      && (c.Err? <==> fhirResource.Some? && encode(fhirResource.value).Err?)
      && (c.Err? ==> c.error == encode(fhirResource.value).error)
      && (c.Ok? ==> c.value.topic == BuiltToken(resourceType, version))
      && (c.Ok? ==>
            c.value.content ==
            EndLabel(action) + (if fhirResource.Some? then encode(fhirResource.value).value else auditEntryString))
  {
  }

  /** The result label tells every action apart; the opening label tells
      every action apart except that SEARCH is the only one without a label. */
  lemma LabelsIdentifyAction(a: Action, b: Action)
    ensures EndLabel(a) == EndLabel(b) <==> a == b
    ensures BeginLabel(a) == BeginLabel(b) <==> a == b
    ensures BeginLabel(a) == "" <==> a == Search
  {
  }

  /** SoTConduitAuditEntryManager: opens and closes audited units of work. */
  class AuditEntryManager {
    /** parserR4.encodeResourceToString */
    const encode: Encoder
    /** the injected services broker */
    const broker: AuditBroker

    constructor (encode: Encoder, broker: AuditBroker)
      ensures this.encode == encode && this.broker == broker
    {
      this.encode := encode;
      this.broker := broker;
    }

    /** beginTransaction: builds a new unit of work for the request and hands
        it to the broker with no parent. An encoding failure is caught and
        turned into a FAILED unit of work. The `version` argument is not
        used. */
    method BeginTransaction(auditStringPayload: string, resourceType: string, fhirResource: Option<Resource>,
                            action: Action, wupInstance: Option<WupId>, version: string)
      returns (currentTransaction: AuditTrailEntry)
      modifies broker
      ensures fresh(currentTransaction.uow)
      ensures currentTransaction.uow.ingress ==
              OpeningState(encode, auditStringPayload, resourceType, fhirResource, action).0
      ensures currentTransaction.uow.outcome ==
              OpeningState(encode, auditStringPayload, resourceType, fhirResource, action).1
      ensures currentTransaction.uow.egress == []
      ensures broker.calls ==
              old(broker.calls) + [BrokerCall(wupInstance, ActionName(action), currentTransaction.uow, None)]
    {
      var encodingFailure := false;
      var errorString := "";
      var auditTrailPayload := "";
      match action {
        case Review => auditTrailPayload := "Action: Get --> ";
        case Create => auditTrailPayload := "Action: Create --> ";
        case Delete => auditTrailPayload := "Action: Delete --> ";
        case Update => auditTrailPayload := "Action: Update --> ";
        case Search =>
      }
      assert auditTrailPayload == BeginLabel(action);
      // the UoWPayload under construction: both parts unset
      var payloadContent: Option<string> := None;
      var payloadTopic: Option<TopicToken> := None;
      if fhirResource.Some? {
        var encoded := encode(fhirResource.value);
        match encoded {
          case Ok(resourceAsString) =>
            payloadContent := Some(auditTrailPayload + resourceAsString);
            payloadTopic := Some(BuiltToken(resourceType, FHIR_VERSION));
          case Err(ex) =>
            errorString := ex;
            encodingFailure := true;
        }
      } else {
        payloadContent := Some(auditTrailPayload + auditStringPayload);
        payloadTopic := Some(BuiltToken(resourceType, FHIR_VERSION));
      }
      var theUoW: UoW;
      if encodingFailure {
        payloadContent := Some(ENCODING_ERROR_PREFIX + errorString);
        var payloadTopicFDN: FDN := [];
        payloadTopicFDN := payloadTopicFDN + [RDN(DatasetDefiner, "AETHER")];
        payloadTopicFDN := payloadTopicFDN + [RDN(DatasetCategory, "DataTypes")];
        payloadTopicFDN := payloadTopicFDN + [RDN(DatasetSubcategory, "Error")];
        payloadTopicFDN := payloadTopicFDN + [RDN(DatasetResource, "JSONConversionErrorMessage")];
        payloadTopic := Some(FdnToken(payloadTopicFDN, "1.0.0"));
        assert payloadTopic.value == ErrorTopic;
        theUoW := new UoW(Payload(payloadContent.value, payloadTopic.value));
        theUoW.SetProcessingOutcome(Failed);
      } else {
        theUoW := new UoW(Payload(payloadContent.value, payloadTopic.value));
        theUoW.SetProcessingOutcome(NotStarted);
      }
      currentTransaction := broker.TransactionAuditEntry(wupInstance, ActionName(action), theUoW, None);
    }

    /** endTransaction: takes the unit of work back from the starting entry.
        On success it appends one egress payload and sets SUCCESS, whatever
        the outcome was before; otherwise it sets FAILED. Either way it hands
        the same unit of work to the broker with the starting entry as parent.
        An encoding failure here is not caught: it escapes before anything
        has changed. */
    method EndTransaction(auditEntryString: string, resourceType: string, fhirResource: Option<Resource>,
                          action: Action, success: bool, startingTransaction: AuditTrailEntry,
                          wupInstance: Option<WupId>, version: string)
      returns (status: Outcome<string>)
      modifies startingTransaction.uow, broker
      ensures !success ==>
        && status == Pass
        && startingTransaction.uow.outcome == Failed
        && startingTransaction.uow.ingress == old(startingTransaction.uow.ingress)
        && startingTransaction.uow.egress == old(startingTransaction.uow.egress)
        && broker.calls == old(broker.calls) +
             [BrokerCall(wupInstance, ActionName(action), startingTransaction.uow, Some(startingTransaction))]
      ensures success && ClosingPayload(encode, auditEntryString, resourceType, fhirResource, action, version).Err? ==>
        && status == Fail(ClosingPayload(encode, auditEntryString, resourceType, fhirResource, action, version).error)
        && unchanged(startingTransaction.uow)
        && broker.calls == old(broker.calls)
      ensures success && ClosingPayload(encode, auditEntryString, resourceType, fhirResource, action, version).Ok? ==>
        && status == Pass
        && startingTransaction.uow.outcome == Success
        && startingTransaction.uow.ingress == old(startingTransaction.uow.ingress)
        && startingTransaction.uow.egress == old(startingTransaction.uow.egress) +
             [ClosingPayload(encode, auditEntryString, resourceType, fhirResource, action, version).value]
        && broker.calls == old(broker.calls) +
             [BrokerCall(wupInstance, ActionName(action), startingTransaction.uow, Some(startingTransaction))]
    {
      var updatedUoW := startingTransaction.uow;
      if success {
        var auditTrailPayload: string;
        match action {
          case Review => auditTrailPayload := "Action: Get, Result --> ";
          case Update => auditTrailPayload := "Action: Update, Result --> ";
          case Create => auditTrailPayload := "Action: Create, Result --> ";
          case Delete => auditTrailPayload := "Action: Delete, Result --> ";
          case Search => auditTrailPayload := "Action: Search, Result --> ";
        }
        if fhirResource.Some? {
          var encoded := encode(fhirResource.value);
          if encoded.Err? {
            // the encoder's exception leaves endTransaction
            status := Fail(encoded.error);
            return;
          }
          auditTrailPayload := auditTrailPayload + encoded.value;
        } else {
          auditTrailPayload := auditTrailPayload + auditEntryString;
        }
        var newPayload := Payload(auditTrailPayload, BuiltToken(resourceType, version));
        updatedUoW.AddEgressPayload(newPayload);
        updatedUoW.SetProcessingOutcome(Success);
        var currentTransaction := broker.TransactionAuditEntry(wupInstance, ActionName(action), updatedUoW, Some(startingTransaction));
      } else {
        updatedUoW.SetProcessingOutcome(Failed);
        var currentTransaction := broker.TransactionAuditEntry(wupInstance, ActionName(action), updatedUoW, Some(startingTransaction));
      }
      status := Pass;
    }
  }

  /** One access audited from end to end: beginTransaction, then
      endTransaction on the entry it returned. The final outcome is decided by
      `success` alone: a unit of work opened FAILED (its resource would not
      encode) still ends SUCCESS when the step succeeds. */
  method AuditedAccess(m: AuditEntryManager, requestSummary: string, resultSummary: string, resourceType: string,
                       request: Option<Resource>, result: Option<Resource>, action: Action, success: bool,
                       wup: Option<WupId>, version: string)
    returns (entry: AuditTrailEntry, status: Outcome<string>)
    modifies m.broker
    ensures fresh(entry.uow)
    ensures entry.uow.ingress == OpeningState(m.encode, requestSummary, resourceType, request, action).0
    ensures status.Fail? <==> success && ClosingPayload(m.encode, resultSummary, resourceType, result, action, version).Err?
    ensures status.Fail? ==>
      && entry.uow.outcome == OpeningState(m.encode, requestSummary, resourceType, request, action).1
      && entry.uow.egress == []
      && m.broker.calls == old(m.broker.calls) + [BrokerCall(wup, ActionName(action), entry.uow, None)]
    ensures status.Pass? ==>
      && entry.uow.outcome == (if success then Success else Failed)
      && entry.uow.egress ==
           (if success then [ClosingPayload(m.encode, resultSummary, resourceType, result, action, version).value] else [])
      && m.broker.calls == old(m.broker.calls) +
           [BrokerCall(wup, ActionName(action), entry.uow, None),
            BrokerCall(wup, ActionName(action), entry.uow, Some(entry))]
  {
    entry := m.BeginTransaction(requestSummary, resourceType, request, action, wup, version);
    status := m.EndTransaction(resultSummary, resourceType, result, action, success, entry, wup, version);
  }
}
