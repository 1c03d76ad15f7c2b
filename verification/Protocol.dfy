/** Row types, collaborator calls and replies: the vocabulary shared by the store, the conductor
    and the model of everything around them. Strings that the source only compares with a few
    constants (formats, provider states, document kinds) are datatypes with a catch-all case. */
module Protocol {
  datatype Option<+T> = None | Some(value: T)

  datatype Format = XAdES | PAdES | OtherFormat(name: string)

  /** A job's state: the provider's word for it, or the conductor's own terminal COMPLETED. PREPARING is what
      a job is saved with when the provider gave none (UNSET). */
  datatype State = READY | FAILED | COMPLETED | PREPARING | UNSET | OtherState(name: string)

  datatype LoginMethod = WebEid | LegacyEid | EidScan | EparakstsMobile | OtherMethod(name: string)

  datatype Flow =
    | WebEidFlow | LegacyEidFlow | EidScanFlow | EparakstsMobileFlow | EparakstsMobileEseal
    | CscEidScan | CscEidPlugin | OtherFlow(name: string)

  datatype Mime = ApplicationPdf | OtherMime(name: string)

  datatype Preservation = Unspecified | NoPreservation | PreservationClass(name: string)

  datatype DigestAlgorithm = NoDigest | SHA_256

  /** The name a multipart file part goes by. */
  datatype FileRef = NoFile | File0

  /** The file name that tells the provider how to read an artifact: document.pdf or container.asice. */
  datatype ArtifactName = DocumentPdf | ContainerAsice

  datatype Kind = Container | Pdf | OtherKind(name: string)

  /** Nanoseconds in a second: the unit of every clock value. */
  const SECOND := 1_000_000_000

  const SIGNING_LOCK_TTL_SECONDS := 300

  /** Document bytes are opaque values; a constructor says only where they came from. */
  datatype Bytes =
    | ChainBytes(root: string, version: nat)       // what a chain's document held at a version
    | SignedPdf(jobID: string, base: Bytes)        // the provider's PDF: a signature embedded over base
    | Fileless(jobID: string)                      // the provider's fileless container
    | OtherBytes(tag: string)

  datatype OnBehalf = OnBehalf(sub: string, token: string)

  // ---- rows of the store ----

  datatype Job = Job(
    jobID: string, envelopeID: string, slotID: string, flow: Flow, sigFormat: Format,
    state: State, callerSub: string, loginMethod: LoginMethod, loA: string, createdAt: int, updatedAt: int)

  datatype SaveJobInput = SaveJobInput(
    jobID: string, envelopeID: string, slotID: string, flow: Flow, sigFormat: Format,
    callerSub: string, state: State, loginMethod: LoginMethod, loA: string)

  datatype Signature = Signature(
    id: string, jobID: string, envelopeID: string, slotID: string, flowUsed: Flow, sigFormat: Format,
    level: string, signedDocumentRef: string, timestampRef: string, validated: bool, validationID: string,
    preservationClass: Preservation, loginMethod: LoginMethod, loA: string)

  datatype SignatureInput = SignatureInput(
    jobID: string, envelopeID: string, slotID: string, flowUsed: Flow, sigFormat: Format,
    level: string, signedDocumentRef: string, timestampRef: string, validationID: string,
    preservationClass: Preservation, validated: bool, loginMethod: LoginMethod, loA: string)

  /** The fields of a normalized answer that are copied through without being looked at. */
  datatype Details = Details(
    signer: string, signerSerial: string, organization: string, containerForm: string,
    signingTime: string, revocationTime: string, maxValidityTime: string,
    signedFiles: seq<string>, warnings: seq<string>, errors: seq<string>)

  datatype Answer = Answer(pass: bool, verdict: string, format: string, level: string, details: Details)

  datatype ReportInput = ReportInput(
    signatureID: string, verdict: string, format: string, level: string, details: Details, resultRef: string)

  datatype Lease = Lease(slot: string, expires: int)

  // ---- what the collaborators say ----

  datatype Metadata = Metadata(kind: Kind, filename: string, mime: Mime, contentHash: string)
  datatype DataObject = DataObject(name: string, contentHash: string, algorithm: string)
  datatype PrepareFile = PrepareFile(name: string, digest: string, digestAlgorithm: string)
  datatype PrepareDoc = PrepareDoc(
    documentID: string, filename: string, mime: Mime, documentHash: string, digestAlgorithm: DigestAlgorithm,
    signatureFormat: Format, fileRef: FileRef, files: seq<PrepareFile>)
  datatype PrepareOptions = PrepareOptions(
    signingCertificate: string, authCertificate: string, signIdentityID: string, sealID: string,
    postAuthRedirect: string, authErrorRedirect: string)
  datatype DocRef = DocRef(documentID: string, digest: string, digestAlgorithm: string, downloadURL: string)
  datatype PrepareResult = PrepareResult(
    jobID: string, state: State, authorizeURL: string, signAlgorithm: string, documents: seq<DocRef>)
  datatype StatusResult = StatusResult(
    state: State, documents: seq<DocRef>, verificationCode: string, verificationMessage: string, signingDeadline: int)
  datatype ClientSignature = ClientSignature(documentID: string, signatureValue: string)

  // ---- calls and replies ----

  datatype StoreCall =
    | SaveJob(save: SaveJobInput)
    | ReconcileJob(jobID: string, state: State)
    | GetJob(jobID: string)
    | InsertSignature(input: SignatureInput)
    | GetSignature(signatureID: string)
    | RecordValidation(signatureID: string, validationID: string, validated: bool, level: string)
    | StoreReport(report: ReportInput)
    | AcquireChainLock(chainKey: string, holderSlot: string, holderRef: string, ttlSeconds: int)
    | ReleaseChainLock(chainKey: string, holderSlot: string)
    | ChainLockStatus(chainKey: string)

  datatype PortCall =
    | GetEnvelope(envelopeID: string, obo: OnBehalf)
    | CurrentHead(rootID: string, obo: OnBehalf)
    | GetMetadata(docID: string, obo: OnBehalf)
    | DataObjects(docID: string, obo: OnBehalf)
    | Content(docID: string, obo: OnBehalf)
    | Complete(docID: string, fileless: Bytes, obo: OnBehalf)
    | StoreSignedDocument(parentID: string, signed: Bytes, mime: Mime, filename: string, obo: OnBehalf)
    | Prepare(flow: Flow, doc: PrepareDoc, opts: PrepareOptions)
    | PrepareWithFile(flow: Flow, doc: PrepareDoc, file: Bytes, opts: PrepareOptions)
    | Status(jobID: string, wait: int)
    | Submit(jobID: string, sigs: seq<ClientSignature>)
    | Download(jobID: string, docID: string, sigFormat: Format)
    | Validate(container: Bytes, artifact: ArtifactName)
    | NormalizeReport(report: string)
    | MarkSlotSigned(envelopeID: string, slotID: string, signatureID: string, signedDocRef: string, jobID: string)

  datatype Call = ToStore(s: StoreCall) | ToPort(p: PortCall)

  datatype Fault = NotFound | Duplicate | Http(status: int) | Cancelled | UnexpectedReply | Broken(reason: string)

  datatype Reply =
    | Fail(fault: Fault)
    | Ack
    | NewId(id: string)
    | JobRow(job: Job)
    | SignatureRow(sig: Signature)
    | Granted(acquired: bool)
    | LockState(locked: bool, holder: string)
    | EnvelopeView(documents: seq<string>)
    | Head(headID: string)
    | Meta(meta: Metadata)
    | Objects(objects: seq<DataObject>)
    | Blob(bytes: Bytes)
    | Prepared(prep: PrepareResult)
    | Provider(status: StatusResult)
    | Report(report: string)
    | Normalized(answer: Answer)

  /** The fault behind a reply the caller cannot use. */
  function FaultOf(r: Reply): Fault {
    if r.Fail? then r.fault else UnexpectedReply
  }

  /** A keep-latest CAS refusal of the document service: HTTP 409. */
  predicate IsChainAdvanced(r: Reply) {
    r.Fail? && r.fault == Http(409)
  }

  // ---- what a Begin is asked for ----

  datatype BeginInput = BeginInput(
    envelopeID: string, slotID: string, flow: Flow, sigFormat: Format, documentID: string,
    callerSub: string, subjectToken: string, loginMethod: LoginMethod, loA: string, opts: PrepareOptions)
  {
    function Obo(): OnBehalf { OnBehalf(callerSub, subjectToken) }
  }

  // ---- what the conductor returns ----

  datatype Stage =
    | ResolveHead | FetchMetadata | AcquireLock | FetchBytes | FetchObjects | PrepareJob | PersistJob
    | ProviderStatus | ReconcileState | DownloadArtifact | StorePdf | CompleteContainer
    | RecordSignature | MarkCompleted | FetchContainer | ValidateContainer | PersistReport | LinkReport
    | SubmitSignature

  datatype Error =
    | ErrUnsupportedFormat | ErrBindingMismatch | ErrForbidden | ErrProviderState
    | ErrChainAdvanced | ErrSigningInProgress
    | Plain(cause: Fault)                  // returned as it came
    | Wrapped(stage: Stage, cause: Fault)  // returned with the stage that failed

  datatype DigestOut = DigestOut(documentID: string, digest: string, digestAlgorithm: string)
  datatype BeginResult = BeginResult(
    jobID: string, state: State, authorizeURL: string, signAlgorithm: string, documents: seq<DigestOut>)

  datatype ValidationResult = ValidationResult(answer: Answer, reportID: string)

  datatype SigningStatus = SigningStatus(
    jobID: string, state: State, verificationCode: string, verificationMessage: string, signingDeadline: int,
    containerID: string, signatureID: string, envelopeID: string, slotID: string,
    validation: Option<ValidationResult>)

  /** The status of a job about which only the state is known. */
  function BareStatus(jobID: string, state: State): SigningStatus {
    SigningStatus(jobID, state, "", "", 0, "", "", "", "", None)
  }

  datatype Outcome =
    | Began(result: BeginResult)
    | Signing(status: SigningStatus)
    | Validated(sig: Signature, res: ValidationResult)
    | Abandoned
    | Rejected(error: Error)
}
