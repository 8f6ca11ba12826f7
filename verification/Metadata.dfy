/** The envelope of a synchronized object (internal/corecontracts/metadata.go):
    structure, compare-and-swap guards, and version succession. */
module Metadata {
  import opened Options
  import Text

  /** Instants in nanoseconds; 0 is Go's zero time. */
  type Time = int
  const ZERO_TIME: Time := 0

  const MAX_UINT64: nat := 0xFFFF_FFFF_FFFF_FFFF
  type uint64 = n: int | 0 <= n <= MAX_UINT64

  datatype Error =
    | InvalidMetadata | PreconditionRequired | InvalidPrecondition | PreconditionFailed | InvalidTransition
    | InvalidObject | InvalidMutation | InvalidRoleAssignment | ObjectNotFound | ObjectAlreadyExists
    | IdempotencyConflict | Canceled | VersionUnavailable

  datatype ObjectMetadata = ObjectMetadata(
    objectID: string, scopeID: string, ownerScope: string, generation: uint64,
    resourceVersion: string, createdAt: Time, updatedAt: Time)

  predicate IsIdentifier(s: string)
  {
    Text.IsIdentifier(s, 255, true)
  }

  predicate Valid(m: ObjectMetadata)
  {
    && IsIdentifier(m.objectID) && IsIdentifier(m.scopeID) && IsIdentifier(m.ownerScope)
    && m.generation != 0 && Text.IsOpaqueToken(m.resourceVersion)
    && m.createdAt != ZERO_TIME && m.updatedAt != ZERO_TIME && m.createdAt <= m.updatedAt
  }

  datatype Precondition = Precondition(objectID: string, resourceVersion: string, generation: Option<uint64>)

  /** The guard of an update; `None` means it holds. */
  function CheckPrecondition(p: Precondition, current: ObjectMetadata): Option<Error>
  {
    if p.objectID == "" || p.resourceVersion == "" then Some(PreconditionRequired)
    else if !IsIdentifier(p.objectID) || !Text.IsOpaqueToken(p.resourceVersion) || p.generation == Some(0) then
      Some(InvalidPrecondition)
    else if !Valid(current) then Some(InvalidMetadata)
    else if p.objectID != current.objectID || p.resourceVersion != current.resourceVersion ||
            (p.generation.Some? && p.generation.value != current.generation) then Some(PreconditionFailed)
    else None
  }

  /** Whether `next` may follow `current`. */
  predicate Succeeds(current: ObjectMetadata, next: ObjectMetadata, desiredChanged: bool)
  {
    && Valid(current) && Valid(next)
    && next.objectID == current.objectID && next.createdAt == current.createdAt
    && current.updatedAt <= next.updatedAt && next.resourceVersion != current.resourceVersion
    && (desiredChanged || (next.scopeID == current.scopeID && next.ownerScope == current.ownerScope))
    && (desiredChanged ==> current.generation != MAX_UINT64)
    && next.generation == (if desiredChanged then current.generation + 1 else current.generation)
  }

  /** `generation++` on a uint64. */
  function Incremented(generation: uint64): uint64
  {
    if generation == MAX_UINT64 then 0 else generation + 1
  }
}
