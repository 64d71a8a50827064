/** The kernel's own trace events, as the wrapper and the plane bridge read them. */
module KernelEvents {
  import opened Basics
  import opened Json

  datatype EventKind =
    | IntentApproved | IntentTransformed | IntentDenied
    | TaintPropagated | DegradationTransition | SourceQuarantined | SuspiciousIntent
    | ChildSpawned | ChildStale | ChildCompleted | Cancelled | Cosmetic

  /** The Python class of an event; a plain event carries only its kind. */
  datatype EventClass =
    | PlainEvent | IntentDeniedEvent | DegradationTransitionEvent | SourceQuarantinedEvent
    | TaintPropagatedEvent | SuspiciousIntentEvent | ChildSpawnedEvent | ChildStaleEvent | CancelledEvent

  /** What the kernel found about one argument: the taint sources it derives from, and whether it is sensitive. */
  datatype ArgProvenance = ArgProvenance(sources: seq<string>, sensitive: bool)

  datatype Payload = Payload(
    tool: string,
    category: Option<string>,
    drivingArgs: seq<string>,
    provenance: map<string, ArgProvenance>,
    other: seq<Field>)

  /** What the classes of events add: the fields of degradations, quarantines, suspicions and children. */
  datatype Details = Details(
    sourceId: Option<string>,
    newLevel: string,
    previousLevel: string,
    tool: string,
    score: Value,
    reasons: seq<string>,
    childId: Option<string>,
    childDepth: Option<int>)

  datatype TraceEvent = TraceEvent(
    cls: EventClass,
    kind: EventKind,
    nodeId: string,
    sequence: nat,
    payload: Payload,
    reason: string,
    intentKind: string,          // of a denied intent
    policyAction: string,        // of a suspicious intent
    detail: string,              // of a cancellation
    details: Details)

  predicate IsVerdict(e: TraceEvent)
  {
    e.kind.IntentApproved? || e.kind.IntentTransformed? || e.kind.IntentDenied?
  }

  predicate IsDenial(e: TraceEvent)
  {
    e.kind.IntentDenied?
  }

  /** Only the tool-call verdicts, in order. */
  function VerdictEvents(events: seq<TraceEvent>): seq<TraceEvent>
  {
    Filter(IsVerdict, events)
  }
}
