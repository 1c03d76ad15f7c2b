/** The conductor's operations as a machine of pending calls. An Op says where an operation stands and
    what it remembers; Request is the one store or collaborator call it makes next; Resume is what the
    code does with the reply, up to its next call or its return. The Conductor class is proved to make
    exactly these calls, and the interleaved system advances any number of Ops one call at a time. */
module Choreography {
  import opened Protocol
  import opened Binding

  const MAX_CO_SIGN_RETRIES := 3
  const NOTIFY_ATTEMPTS := 2

  /** Who asked for a validation, and what is returned once it is over. */
  datatype Asker = AtSigning(status: SigningStatus) | OnDemand(sig: Signature)

  datatype Validation = Validation(
    sigID: string, containerID: string, sigFormat: Format, obo: OnBehalf, asker: Asker)

  datatype Beginning =
    | BEnvelope
    | BHead(root: string)
    | BMeta(docID: string)
    | BAcquire(docID: string, meta: Metadata)
    | BContent(docID: string, meta: Metadata)
    | BPrepareFile(docID: string, meta: Metadata, file: Bytes)
    | BObjects(docID: string, meta: Metadata)
    | BPrepare(docID: string, meta: Metadata, files: seq<PrepareFile>)
    | BSave(meta: Metadata, prep: PrepareResult)
    | BUndo(error: Error)  // the deferred release of a failed Begin

  datatype Polling =
    | RGet(wait: int, caller: string, token: string)
    | RStatus(job: Job, wait: int, token: string)
    | RNote(job: Job, token: string, st: StatusResult)
    | RKeep(job: Job, st: StatusResult)

  datatype Finalizing =
    | FDownload(docID: string)
    | FMeta(docID: string, signed: Bytes)
    | FStore(docID: string, signed: Bytes, filename: string)
    | FComplete(docID: string, fileless: Bytes, attempt: nat)
    | FInsert(ref: string)
    | FMark(ref: string, sigID: string)
    | FRelease(ref: string, sigID: string)
    | FNotify(ref: string, sigID: string, attempt: nat)

  datatype Validating =
    | VContent
    | VValidate(container: Bytes)
    | VNormalize(report: string)
    | VStore(answer: Answer)
    | VLink(answer: Answer, reportID: string)

  datatype Asking = DSig | DJob(sig: Signature)

  datatype Abandoning = AGet(jobID: string, caller: string) | ARelease(job: Job)

  datatype Submitting =
    | SGet(sigs: seq<ClientSignature>, caller: string)
    | SSubmit(sigs: seq<ClientSignature>)
    | SNote(state: State)

  datatype Op =
    | InBegin(input: BeginInput, b: Beginning)
    | InReconcile(jobID: string, r: Polling)
    | InFinalize(job: Job, token: string, f: Finalizing)
    | InValidation(v: Validation, at: Validating)
    | InValidate(sigID: string, caller: string, token: string, d: Asking)
    | InAbandon(a: Abandoning)
    | InSubmit(jobID: string, s: Submitting)
    | Done(outcome: Outcome)

  // ---- small decisions ----

  /** The requested format counts only on a virgin source; a chain's own form wins. */
  function DecideFormat(hint: Format, kind: Kind): Format {
    match kind
    case Container => XAdES
    case Pdf => PAdES
    case OtherKind(_) => hint
  }

  function RootDocument(documents: seq<string>): string {
    if |documents| == 0 then "" else documents[0]
  }

  function FirstReady(documents: seq<DocRef>): Option<string> {
    if |documents| == 0 then None
    else if documents[0].downloadURL != "" then Some(documents[0].documentID)
    else FirstReady(documents[1..])
  }

  /** The first document with a download URL, else the first document, else "". */
  function ReadyDocID(documents: seq<DocRef>): string {
    match FirstReady(documents)
    case Some(id) => id
    case None => if |documents| > 0 then documents[0].documentID else ""
  }

  function ValidationFilename(sigFormat: Format): ArtifactName {
    if sigFormat == PAdES then DocumentPdf else ContainerAsice
  }

  predicate Owned(job: Job, caller: string) {
    caller == "" || job.callerSub == caller
  }

  predicate TakesLock(envelopeID: string, sigFormat: Format) {
    sigFormat == PAdES && envelopeID != ""
  }

  function FormatOf(input: BeginInput, meta: Metadata): Format {
    DecideFormat(input.sigFormat, meta.kind)
  }

  function FilesOf(objects: seq<DataObject>): seq<PrepareFile> {
    seq(|objects|, i requires 0 <= i < |objects| =>
      PrepareFile(objects[i].name, objects[i].contentHash, objects[i].algorithm))
  }

  function DigestsOf(documents: seq<DocRef>): seq<DigestOut> {
    seq(|documents|, i requires 0 <= i < |documents| =>
      DigestOut(documents[i].documentID, documents[i].digest, documents[i].digestAlgorithm))
  }

  function BeginResultOf(prep: PrepareResult): BeginResult {
    BeginResult(prep.jobID, prep.state, prep.authorizeURL, prep.signAlgorithm, DigestsOf(prep.documents))
  }

  function PendingStatus(jobID: string, st: StatusResult): SigningStatus {
    BareStatus(jobID, st.state).(verificationCode := st.verificationCode,
      verificationMessage := st.verificationMessage, signingDeadline := st.signingDeadline)
  }

  function CompletedStatus(job: Job, ref: string, sigID: string): SigningStatus {
    BareStatus(job.jobID, COMPLETED).(containerID := ref, signatureID := sigID,
      envelopeID := job.envelopeID, slotID := job.slotID)
  }

  function SignatureInputOf(job: Job, ref: string): SignatureInput {
    SignatureInput(job.jobID, job.envelopeID, job.slotID, job.flow, job.sigFormat, "", ref, "", "", Unspecified, false,
                   job.loginMethod, job.loA)
  }

  function ReportOf(sigID: string, answer: Answer): ReportInput {
    ReportInput(sigID, answer.verdict, answer.format, answer.level, answer.details, "")
  }

  function SaveInputOf(input: BeginInput, meta: Metadata, prep: PrepareResult): SaveJobInput {
    SaveJobInput(prep.jobID, input.envelopeID, input.slotID, input.flow, FormatOf(input, meta),
                 input.callerSub, prep.state, input.loginMethod, input.loA)
  }

  function FileDoc(docID: string, meta: Metadata): PrepareDoc {
    PrepareDoc(docID, meta.filename, meta.mime, "", NoDigest, PAdES, File0, [])
  }

  function HashDoc(docID: string, meta: Metadata, sigFormat: Format, files: seq<PrepareFile>): PrepareDoc {
    if meta.kind == Container then PrepareDoc(docID, meta.filename, meta.mime, "", NoDigest, sigFormat, NoFile, files)
    else PrepareDoc(docID, meta.filename, meta.mime, meta.contentHash, SHA_256, sigFormat, NoFile, [])
  }

  // ---- where an operation starts ----

  function BeginOp(wired: bool, input: BeginInput): Op {
    if input.sigFormat != XAdES && input.sigFormat != PAdES then Done(Rejected(ErrUnsupportedFormat))
    else if !Permits(input.loginMethod, input.flow) then Done(Rejected(ErrBindingMismatch))
    else if wired && input.envelopeID != "" then InBegin(input, BEnvelope)
    else InBegin(input, BMeta(input.documentID))
  }

  function ReconcileOp(jobID: string, wait: int, caller: string, token: string): Op {
    InReconcile(jobID, RGet(wait, caller, token))
  }

  function FinalizeOp(job: Job, st: StatusResult, token: string): Op {
    if ReadyDocID(st.documents) == "" then Done(Rejected(ErrProviderState))
    else InFinalize(job, token, FDownload(ReadyDocID(st.documents)))
  }

  function ValidateOp(sigID: string, caller: string, token: string): Op {
    InValidate(sigID, caller, token, DSig)
  }

  function AbandonOp(jobID: string, caller: string): Op {
    InAbandon(AGet(jobID, caller))
  }

  function SubmitOp(jobID: string, sigs: seq<ClientSignature>, caller: string): Op {
    InSubmit(jobID, SGet(sigs, caller))
  }

  // ---- joints ----

  /** A Begin that fails after taking the lock releases it before it returns. */
  function BFail(input: BeginInput, meta: Metadata, error: Error): Op {
    if TakesLock(input.envelopeID, FormatOf(input, meta)) then InBegin(input, BUndo(error)) else Done(Rejected(error))
  }

  function BPrepareStart(input: BeginInput, docID: string, meta: Metadata): Op {
    InBegin(input,
      if FormatOf(input, meta) == PAdES then BContent(docID, meta)
      else if meta.kind == Container then BObjects(docID, meta)
      else BPrepare(docID, meta, []))
  }

  function StoreFailure(r: Reply, stage: Stage): Op {
    Done(Rejected(if IsChainAdvanced(r) then ErrChainAdvanced else Wrapped(stage, FaultOf(r))))
  }

  function AfterMark(wired: bool, job: Job, token: string, ref: string, sigID: string): Op {
    if TakesLock(job.envelopeID, job.sigFormat) then InFinalize(job, token, FRelease(ref, sigID))
    else AfterRelease(wired, job, token, ref, sigID)
  }

  function AfterRelease(wired: bool, job: Job, token: string, ref: string, sigID: string): Op {
    if wired then InFinalize(job, token, FNotify(ref, sigID, 1)) else AfterNotify(job, token, ref, sigID)
  }

  function AtSigningValidation(job: Job, token: string, ref: string, sigID: string): Validation {
    Validation(sigID, ref, job.sigFormat, OnBehalf(job.callerSub, token), AtSigning(CompletedStatus(job, ref, sigID)))
  }

  function AfterNotify(job: Job, token: string, ref: string, sigID: string): Op {
    InValidation(AtSigningValidation(job, token, ref, sigID), VContent)
  }

  /** At signing a failed validation is only logged; on demand it is the caller's error. */
  function ValidationFailed(v: Validation, error: Error): Outcome {
    match v.asker
    case AtSigning(status) => Signing(status)
    case OnDemand(_) => Rejected(error)
  }

  function ValidationDone(v: Validation, res: ValidationResult): Outcome {
    match v.asker
    case AtSigning(status) => Signing(status.(validation := Some(res)))
    case OnDemand(sig) => Validated(sig, res)
  }

  // ---- the call an operation is waiting on ----

  function BeginCall(input: BeginInput, b: Beginning): Call {
    match b
    case BEnvelope => ToPort(GetEnvelope(input.envelopeID, input.Obo()))
    case BHead(root) => ToPort(CurrentHead(root, input.Obo()))
    case BMeta(docID) => ToPort(GetMetadata(docID, input.Obo()))
    case BAcquire(_, _) =>
      ToStore(AcquireChainLock(input.envelopeID, input.slotID, input.callerSub, SIGNING_LOCK_TTL_SECONDS))
    case BContent(docID, _) => ToPort(Content(docID, input.Obo()))
    case BPrepareFile(docID, meta, file) =>
      ToPort(PrepareWithFile(input.flow, FileDoc(docID, meta), file, input.opts))
    case BObjects(docID, _) => ToPort(DataObjects(docID, input.Obo()))
    case BPrepare(docID, meta, files) =>
      ToPort(Prepare(input.flow, HashDoc(docID, meta, FormatOf(input, meta), files), input.opts))
    case BSave(meta, prep) => ToStore(SaveJob(SaveInputOf(input, meta, prep)))
    case BUndo(_) => ToStore(ReleaseChainLock(input.envelopeID, input.slotID))
  }

  function ReconcileCall(jobID: string, r: Polling): Call {
    match r
    case RGet(_, _, _) => ToStore(GetJob(jobID))
    case RStatus(_, wait, _) => ToPort(Status(jobID, wait))
    case RNote(_, _, st) => ToStore(ReconcileJob(jobID, st.state))
    case RKeep(job, _) =>
      ToStore(AcquireChainLock(job.envelopeID, job.slotID, job.callerSub, SIGNING_LOCK_TTL_SECONDS))
  }

  function FinalizeCall(job: Job, token: string, f: Finalizing): Call {
    match f
    case FDownload(docID) => ToPort(Download(job.jobID, docID, if job.sigFormat == PAdES then PAdES else XAdES))
    case FMeta(docID, _) => ToPort(GetMetadata(docID, OnBehalf(job.callerSub, token)))
    case FStore(docID, signed, filename) =>
      ToPort(StoreSignedDocument(docID, signed, ApplicationPdf, filename, OnBehalf(job.callerSub, token)))
    case FComplete(docID, fileless, _) => ToPort(Complete(docID, fileless, OnBehalf(job.callerSub, token)))
    case FInsert(ref) => ToStore(InsertSignature(SignatureInputOf(job, ref)))
    case FMark(_, _) => ToStore(ReconcileJob(job.jobID, COMPLETED))
    case FRelease(_, _) => ToStore(ReleaseChainLock(job.envelopeID, job.slotID))
    case FNotify(ref, sigID, _) => ToPort(MarkSlotSigned(job.envelopeID, job.slotID, sigID, ref, job.jobID))
  }

  function ValidationCall(v: Validation, at: Validating): Call {
    match at
    case VContent => ToPort(Content(v.containerID, v.obo))
    case VValidate(container) => ToPort(Validate(container, ValidationFilename(v.sigFormat)))
    case VNormalize(report) => ToPort(NormalizeReport(report))
    case VStore(answer) => ToStore(StoreReport(ReportOf(v.sigID, answer)))
    case VLink(answer, reportID) => ToStore(RecordValidation(v.sigID, reportID, answer.pass, answer.level))
  }

  function ValidateCall(sigID: string, d: Asking): Call {
    match d
    case DSig => ToStore(GetSignature(sigID))
    case DJob(sig) => ToStore(GetJob(sig.jobID))
  }

  function AbandonCall(a: Abandoning): Call {
    match a
    case AGet(jobID, _) => ToStore(GetJob(jobID))
    case ARelease(job) => ToStore(ReleaseChainLock(job.envelopeID, job.slotID))
  }

  function SubmitCall(jobID: string, s: Submitting): Call {
    match s
    case SGet(_, _) => ToStore(GetJob(jobID))
    case SSubmit(sigs) => ToPort(Submit(jobID, sigs))
    case SNote(state) => ToStore(ReconcileJob(jobID, state))
  }

  function Request(op: Op): Call
    requires !op.Done?
  {
    match op
    case InBegin(input, b) => BeginCall(input, b)
    case InReconcile(jobID, r) => ReconcileCall(jobID, r)
    case InFinalize(job, token, f) => FinalizeCall(job, token, f)
    case InValidation(v, at) => ValidationCall(v, at)
    case InValidate(sigID, _, _, d) => ValidateCall(sigID, d)
    case InAbandon(a) => AbandonCall(a)
    case InSubmit(jobID, s) => SubmitCall(jobID, s)
  }

  // ---- what it does with the reply ----

  function ResumeBegin(input: BeginInput, b: Beginning, r: Reply): Op {
    match b
    case BEnvelope =>
      // A failed or empty envelope read leaves the client's id as the root.
      InBegin(input, BHead(
        if r.EnvelopeView? && RootDocument(r.documents) != "" then RootDocument(r.documents) else input.documentID))
    case BHead(root) =>
      if !r.Head? then Done(Rejected(Wrapped(ResolveHead, FaultOf(r))))
      else InBegin(input, BMeta(if r.headID != "" then r.headID else root))
    case BMeta(docID) =>
      if !r.Meta? then Done(Rejected(Wrapped(FetchMetadata, FaultOf(r))))
      else if TakesLock(input.envelopeID, FormatOf(input, r.meta)) then InBegin(input, BAcquire(docID, r.meta))
      else BPrepareStart(input, docID, r.meta)
    case BAcquire(docID, meta) =>
      if !r.Granted? then Done(Rejected(Wrapped(AcquireLock, FaultOf(r))))
      else if !r.acquired then Done(Rejected(ErrSigningInProgress))
      else BPrepareStart(input, docID, meta)
    case BContent(docID, meta) =>
      if !r.Blob? then BFail(input, meta, Wrapped(FetchBytes, FaultOf(r)))
      else InBegin(input, BPrepareFile(docID, meta, r.bytes))
    case BPrepareFile(docID, meta, _) =>
      if !r.Prepared? then BFail(input, meta, Wrapped(PrepareJob, FaultOf(r)))
      else InBegin(input, BSave(meta, r.prep))
    case BObjects(docID, meta) =>
      if !r.Objects? then BFail(input, meta, Wrapped(FetchObjects, FaultOf(r)))
      else InBegin(input, BPrepare(docID, meta, FilesOf(r.objects)))
    case BPrepare(docID, meta, _) =>
      if !r.Prepared? then BFail(input, meta, Wrapped(PrepareJob, FaultOf(r)))
      else InBegin(input, BSave(meta, r.prep))
    case BSave(meta, prep) =>
      if !r.Ack? then BFail(input, meta, Wrapped(PersistJob, FaultOf(r))) else Done(Began(BeginResultOf(prep)))
    case BUndo(error) => Done(Rejected(error))
  }

  function ResumeReconcile(jobID: string, p: Polling, r: Reply): Op {
    match p
    case RGet(wait, caller, token) =>
      if !r.JobRow? then Done(Rejected(Plain(FaultOf(r))))
      else if !Owned(r.job, caller) then Done(Rejected(ErrForbidden))
      else if r.job.state == COMPLETED || r.job.state == FAILED then Done(Signing(BareStatus(jobID, r.job.state)))
      else InReconcile(jobID, RStatus(r.job, wait, token))
    case RStatus(job, _, token) =>
      if !r.Provider? then Done(Rejected(Wrapped(ProviderStatus, FaultOf(r))))
      else InReconcile(jobID, RNote(job, token, r.status))
    case RNote(job, token, st) =>
      if !r.Ack? then Done(Rejected(Wrapped(ReconcileState, FaultOf(r))))
      else if st.state == READY then FinalizeOp(job, st, token)
      else if st.state == FAILED then Done(Signing(BareStatus(jobID, FAILED)))
      else if TakesLock(job.envelopeID, job.sigFormat) then InReconcile(jobID, RKeep(job, st))
      else Done(Signing(PendingStatus(jobID, st)))
    case RKeep(_, st) => Done(Signing(PendingStatus(jobID, st)))
  }

  function ResumeFinalize(wired: bool, job: Job, token: string, f: Finalizing, r: Reply): Op {
    match f
    case FDownload(docID) =>
      if !r.Blob? then Done(Rejected(Wrapped(DownloadArtifact, FaultOf(r))))
      else
        InFinalize(job, token, if job.sigFormat == PAdES then FMeta(docID, r.bytes) else FComplete(docID, r.bytes, 0))
    case FMeta(docID, signed) =>
      if !r.Meta? then Done(Rejected(Wrapped(FetchMetadata, FaultOf(r))))
      else InFinalize(job, token, FStore(docID, signed, r.meta.filename))
    case FStore(_, _, _) =>
      if !r.NewId? then StoreFailure(r, StorePdf) else InFinalize(job, token, FInsert(r.id))
    case FComplete(docID, fileless, attempt) =>
      if IsChainAdvanced(r) && attempt < MAX_CO_SIGN_RETRIES then
        InFinalize(job, token, FComplete(docID, fileless, attempt + 1))
      else if !r.NewId? then StoreFailure(r, CompleteContainer)
      else InFinalize(job, token, FInsert(r.id))
    case FInsert(ref) =>
      if !r.NewId? then Done(Rejected(Wrapped(RecordSignature, FaultOf(r))))
      else InFinalize(job, token, FMark(ref, r.id))
    case FMark(ref, sigID) =>
      if !r.Ack? then Done(Rejected(Wrapped(MarkCompleted, FaultOf(r)))) else AfterMark(wired, job, token, ref, sigID)
    case FRelease(ref, sigID) => AfterRelease(wired, job, token, ref, sigID)
    case FNotify(ref, sigID, attempt) =>
      if r.Ack? || attempt >= NOTIFY_ATTEMPTS then AfterNotify(job, token, ref, sigID)
      else InFinalize(job, token, FNotify(ref, sigID, attempt + 1))
  }

  function ResumeValidation(v: Validation, at: Validating, r: Reply): Op {
    match at
    case VContent =>
      if !r.Blob? then Done(ValidationFailed(v, Wrapped(FetchContainer, FaultOf(r))))
      else InValidation(v, VValidate(r.bytes))
    case VValidate(_) =>
      if !r.Report? then Done(ValidationFailed(v, Wrapped(ValidateContainer, FaultOf(r))))
      else InValidation(v, VNormalize(r.report))
    case VNormalize(_) =>
      if !r.Normalized? then Done(ValidationFailed(v, Plain(FaultOf(r)))) else InValidation(v, VStore(r.answer))
    case VStore(answer) =>
      if !r.NewId? then Done(ValidationFailed(v, Wrapped(PersistReport, FaultOf(r))))
      else InValidation(v, VLink(answer, r.id))
    case VLink(answer, reportID) =>
      if !r.Ack? then Done(ValidationFailed(v, Wrapped(LinkReport, FaultOf(r))))
      else Done(ValidationDone(v, ValidationResult(answer, reportID)))
  }

  function ResumeValidate(sigID: string, caller: string, token: string, d: Asking, r: Reply): Op {
    match d
    case DSig =>
      if !r.SignatureRow? then Done(Rejected(Plain(FaultOf(r)))) else InValidate(sigID, caller, token, DJob(r.sig))
    case DJob(sig) =>
      if !r.JobRow? then Done(Rejected(Plain(FaultOf(r))))
      else if !Owned(r.job, caller) then Done(Rejected(ErrForbidden))
      else if sig.signedDocumentRef == "" then Done(Rejected(ErrProviderState))
      else InValidation(
        Validation(sigID, sig.signedDocumentRef, r.job.sigFormat, OnBehalf(r.job.callerSub, token), OnDemand(sig)),
        VContent)
  }

  function ResumeAbandon(a: Abandoning, r: Reply): Op {
    match a
    case AGet(_, caller) =>
      if !r.JobRow? then Done(Rejected(Plain(FaultOf(r))))
      else if !Owned(r.job, caller) then Done(Rejected(ErrForbidden))
      else if TakesLock(r.job.envelopeID, r.job.sigFormat) then InAbandon(ARelease(r.job))
      else Done(Outcome.Abandoned)
    case ARelease(_) => Done(Outcome.Abandoned)
  }

  function ResumeSubmit(jobID: string, s: Submitting, r: Reply): Op {
    match s
    case SGet(sigs, caller) =>
      if !r.JobRow? then Done(Rejected(Plain(FaultOf(r))))
      else if !Owned(r.job, caller) then Done(Rejected(ErrForbidden))
      else InSubmit(jobID, SSubmit(sigs))
    case SSubmit(_) =>
      if !r.Provider? then Done(Rejected(Wrapped(SubmitSignature, FaultOf(r))))
      else InSubmit(jobID, SNote(r.status.state))
    case SNote(state) =>
      if !r.Ack? then Done(Rejected(Wrapped(ReconcileState, FaultOf(r)))) else Done(Signing(BareStatus(jobID, state)))
  }

  function Resume(wired: bool, op: Op, r: Reply): Op
    requires !op.Done?
  {
    match op
    case InBegin(input, b) => ResumeBegin(input, b, r)
    case InReconcile(jobID, p) => ResumeReconcile(jobID, p, r)
    case InFinalize(job, token, f) => ResumeFinalize(wired, job, token, f, r)
    case InValidation(v, at) => ResumeValidation(v, at, r)
    case InValidate(sigID, caller, token, d) => ResumeValidate(sigID, caller, token, d, r)
    case InAbandon(a) => ResumeAbandon(a, r)
    case InSubmit(jobID, s) => ResumeSubmit(jobID, s, r)
  }

  // ---- every operation ends ----

  function FinalizeRank(f: Finalizing): nat {
    match f
    case FDownload(_) => 20
    case FMeta(_, _) => 19
    case FStore(_, _, _) => 18
    case FComplete(_, _, attempt) => 15 + (if attempt <= 3 then 4 - attempt else 1)
    case FInsert(_) => 12
    case FMark(_, _) => 11
    case FRelease(_, _) => 10
    case FNotify(_, _, attempt) => 6 + (if attempt <= 2 then 3 - attempt else 1)
  }

  function BeginRank(b: Beginning): nat {
    match b
    case BEnvelope => 9
    case BHead(_) => 8
    case BMeta(_) => 7
    case BAcquire(_, _) => 6
    case BContent(_, _) => 5
    case BPrepareFile(_, _, _) => 4
    case BObjects(_, _) => 5
    case BPrepare(_, _, _) => 4
    case BSave(_, _) => 3
    case BUndo(_) => 1
  }

  /** An upper bound on the calls an operation still has to make. */
  function Rank(op: Op): nat {
    match op
    case InBegin(_, b) => BeginRank(b)
    case InReconcile(_, r) => if r.RKeep? then 1 else if r.RNote? then 21 else if r.RStatus? then 22 else 23
    case InFinalize(_, _, f) => FinalizeRank(f)
    case InValidation(_, at) =>
      if at.VContent? then 5 else if at.VValidate? then 4 else if at.VNormalize? then 3 else if at.VStore? then 2 else 1
    case InValidate(_, _, _, d) => if d.DSig? then 7 else 6
    case InAbandon(a) => if a.AGet? then 2 else 1
    case InSubmit(_, s) => if s.SGet? then 3 else if s.SSubmit? then 2 else 1
    case Done(_) => 0
  }

  lemma BeginProgress(input: BeginInput, b: Beginning, r: Reply)
    ensures Rank(ResumeBegin(input, b, r)) < BeginRank(b)
  {
  }

  lemma FinalizeProgress(wired: bool, job: Job, token: string, f: Finalizing, r: Reply)
    ensures Rank(ResumeFinalize(wired, job, token, f, r)) < FinalizeRank(f)
  {
  }

  lemma EveryReplyIsProgress(wired: bool, op: Op, r: Reply)
    requires !op.Done?
    ensures Rank(Resume(wired, op, r)) < Rank(op)
  {
    match op
    case InBegin(input, b) =>
      BeginProgress(input, b, r);
      hide ResumeBegin, BeginRank;
    case InFinalize(job, token, f) =>
      FinalizeProgress(wired, job, token, f, r);
      hide ResumeFinalize, FinalizeRank;
    case _ => OtherProgress(wired, op, r);
  }

  lemma OtherProgress(wired: bool, op: Op, r: Reply)
    requires !op.Done? && !op.InBegin? && !op.InFinalize?
    ensures Rank(Resume(wired, op, r)) < Rank(op)
  {
  }

  /** The chosen id is that of one of the documents. */
  lemma {:induction false} ReadyIsNamed(documents: seq<DocRef>)
    ensures FirstReady(documents).Some? ==>
      exists i :: 0 <= i < |documents| && documents[i].documentID == FirstReady(documents).value
    ensures |documents| > 0 ==> exists i :: 0 <= i < |documents| && documents[i].documentID == ReadyDocID(documents)
  {
    if |documents| > 0 && documents[0].downloadURL == "" {
      ReadyIsNamed(documents[1..]);
      if FirstReady(documents).Some? {
        var i :| 0 <= i < |documents| - 1 && documents[1..][i].documentID == FirstReady(documents).value;
        assert documents[i + 1].documentID == FirstReady(documents).value;
      }
    }
  }

  /** A ready document in front of which none is ready is the one that is found and taken. */
  lemma {:induction false} FirstReadyIsFirst(documents: seq<DocRef>, i: nat)
    requires i < |documents| && documents[i].downloadURL != ""
    requires forall j :: 0 <= j < i ==> documents[j].downloadURL == ""
    ensures FirstReady(documents) == Some(documents[i].documentID) && ReadyDocID(documents) == documents[i].documentID
  {
    if i > 0 {
      assert forall j :: 0 <= j < i - 1 ==> documents[1..][j] == documents[j + 1];
      FirstReadyIsFirst(documents[1..], i - 1);
    }
  }

  /** With none ready it is the first of all, or none. */
  lemma {:induction false} NoneReady(documents: seq<DocRef>)
    requires forall j :: 0 <= j < |documents| ==> documents[j].downloadURL == ""
    ensures FirstReady(documents) == None
    ensures ReadyDocID(documents) == if documents == [] then "" else documents[0].documentID
  {
    if |documents| > 0 {
      assert forall j :: 0 <= j < |documents| - 1 ==> documents[1..][j] == documents[j + 1];
      NoneReady(documents[1..]);
    }
  }
}
