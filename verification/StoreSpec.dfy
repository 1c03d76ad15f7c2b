/** What every operation of the Store contract does to the durable state, as functions on values.
    The in-memory store is proved against these functions; the interleaved system is built from them. */
module StoreSpec {
  import opened Protocol

  datatype StoreState = StoreState(
    jobs: map<string, Job>, sigs: map<string, Signature>,
    reports: map<string, ReportInput>, locks: map<string, Lease>)

  const EMPTY := StoreState(map[], map[], map[], map[])

  /** An empty provider state is saved as PREPARING. */
  function InitialState(state: State): State {
    if state == UNSET then PREPARING else state
  }

  function JobOf(input: SaveJobInput, now: int): Job {
    Job(input.jobID, input.envelopeID, input.slotID, input.flow, input.sigFormat, InitialState(input.state),
        input.callerSub, input.loginMethod, input.loA, now, now)
  }

  function SignatureOf(id: string, input: SignatureInput): Signature {
    Signature(id, input.jobID, input.envelopeID, input.slotID, input.flowUsed, input.sigFormat, input.level,
              input.signedDocumentRef, input.timestampRef, input.validated, input.validationID,
              if input.preservationClass == Unspecified then NoPreservation else input.preservationClass,
              input.loginMethod, input.loA)
  }

  /** A validation overwrites the previous link; an empty level keeps the level that was there. */
  function Link(sig: Signature, validationID: string, validated: bool, level: string): Signature {
    sig.(validationID := validationID, validated := validated, level := if level != "" then level else sig.level)
  }

  // ---- the chain lock ----

  predicate Live(lease: Lease, now: int) {
    lease.expires > now
  }

  function TtlOf(ttlSeconds: int): int {
    (if ttlSeconds <= 0 then 300 else ttlSeconds) * SECOND
  }

  /** Another slot's unexpired entry is the only thing that refuses an acquire. */
  predicate Acquirable(locks: map<string, Lease>, chain: string, slot: string, now: int) {
    chain !in locks || !Live(locks[chain], now) || locks[chain].slot == slot
  }

  function Acquire(locks: map<string, Lease>, chain: string, slot: string, ttlSeconds: int, now: int)
    : map<string, Lease>
  {
    if Acquirable(locks, chain, slot, now) then locks[chain := Lease(slot, now + TtlOf(ttlSeconds))] else locks
  }

  function Release(locks: map<string, Lease>, chain: string, slot: string): map<string, Lease> {
    if chain in locks && locks[chain].slot == slot then locks - {chain} else locks
  }

  function LockStatus(locks: map<string, Lease>, chain: string, now: int): (bool, string) {
    if chain in locks && Live(locks[chain], now) then (true, locks[chain].slot) else (false, "")
  }

  // ---- one call ----

  /** The new state and the reply of one store call made at `now`; `id` is the identifier the call
      would assign if it assigns one. */
  function Apply(s: StoreState, now: int, id: string, call: StoreCall): (StoreState, Reply) {
    match call
    case SaveJob(input) =>
      if input.jobID in s.jobs then (s, Fail(Duplicate))
      else (s.(jobs := s.jobs[input.jobID := JobOf(input, now)]), Ack)
    case ReconcileJob(jobID, state) =>
      if jobID !in s.jobs then (s, Fail(NotFound))
      else (s.(jobs := s.jobs[jobID := s.jobs[jobID].(state := state, updatedAt := now)]), Ack)
    case GetJob(jobID) =>
      (s, if jobID in s.jobs then JobRow(s.jobs[jobID]) else Fail(NotFound))
    case InsertSignature(input) =>
      (s.(sigs := s.sigs[id := SignatureOf(id, input)]), NewId(id))
    case GetSignature(signatureID) =>
      (s, if signatureID in s.sigs then SignatureRow(s.sigs[signatureID]) else Fail(NotFound))
    case RecordValidation(signatureID, validationID, validated, level) =>
      if signatureID !in s.sigs then (s, Fail(NotFound))
      else (s.(sigs := s.sigs[signatureID := Link(s.sigs[signatureID], validationID, validated, level)]), Ack)
    case StoreReport(report) =>
      (s.(reports := s.reports[id := report]), NewId(id))
    case AcquireChainLock(chain, slot, _, ttl) =>
      (s.(locks := Acquire(s.locks, chain, slot, ttl, now)), Granted(Acquirable(s.locks, chain, slot, now)))
    case ReleaseChainLock(chain, slot) =>
      (s.(locks := Release(s.locks, chain, slot)), Ack)
    case ChainLockStatus(chain) =>
      var (locked, holder) := LockStatus(s.locks, chain, now);
      (s, LockState(locked, holder))
  }
}
