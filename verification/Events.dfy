/** Events in flight and at rest. */
module Events {
  datatype Option<+T> = None | Some(value: T)

  type EventId = nat
  type TypeId = nat
  // Points in time and durations are counted in nanoseconds.
  type Nanos = nat

  const NANOS_PER_MILLI: nat := 1_000_000

  function Millis(t: Nanos): nat { t / NANOS_PER_MILLI }

  lemma MillisBounds(t: Nanos)
    ensures Millis(t) * 1_000_000 <= t < (Millis(t) + 1) * 1_000_000
  {
  }

  /** The metadata that routing, scheduling and deduplication look at. */
  datatype Metadata = Metadata(
    eventId: EventId, topic: Option<string>, deliverAt: Option<Nanos>, idempotencyKey: Option<string>)

  /** An event in memory: `typeId` is the process-local identity behind the stable `typeName`. */
  datatype Envelope = Envelope(typeId: TypeId, typeName: string, metadata: Metadata, payload: seq<bv8>)

  /** An event as a database row. The row does not hold the type identity. */
  datatype PersistedEnvelope = PersistedEnvelope(typeName: string, metadata: Metadata, payload: seq<bv8>)

  function Persist(e: Envelope): PersistedEnvelope {
    PersistedEnvelope(e.typeName, e.metadata, e.payload)
  }

  function Restore(typeId: TypeId, row: PersistedEnvelope): Envelope {
    Envelope(typeId, row.typeName, row.metadata, row.payload)
  }

  /** A row holds all of an event but its type identity. */
  lemma RowRoundTrip(e: Envelope, typeId: TypeId, row: PersistedEnvelope)
    ensures Restore(e.typeId, Persist(e)) == e
    ensures Restore(typeId, row).typeId == typeId && Persist(Restore(typeId, row)) == row
  {
  }

  /** The topic an event is routed by: the explicit one, or else the name of its type. */
  function TargetTopic(e: Envelope): string {
    match e.metadata.topic
    case Some(t) => t
    case None => e.typeName
  }
}
