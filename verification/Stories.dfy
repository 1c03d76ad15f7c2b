/** What each operation asks, in which order and with which arguments, and what it returns, told from outside: as a
    property of its own exchanges and its outcome, field by field. A story looks at what was answered and nothing else;
    it knows no states, no helpers and no data of the choreography. Telling proves that an operation's runs are exactly
    the exchanges and outcomes that tell its story. */
module Stories {
  import opened Protocol
  import opened Solo

  /** The run has only added to the trace. */
  predicate Extends(s: Setting, t: Setting) {
    |s.trace| <= |t.trace| && t.trace[..|s.trace|] == s.trace
  }

  /** What a run has added to the trace. */
  function Since(s: Setting, t: Setting): seq<Exchange> {
    if |s.trace| <= |t.trace| then t.trace[|s.trace|..] else []
  }

  // ---- words for the ends of a story ----

  predicate CauseIs(cause: Fault, r: Reply) {
    if r.Fail? then cause == r.fault else cause == UnexpectedReply
  }

  /** The operation ended with the stage that failed and the reason it was given. */
  predicate FailedAt(stage: Stage, r: Reply, out: Outcome) {
    out.Rejected? && out.error.Wrapped? && out.error.stage == stage && CauseIs(out.error.cause, r)
  }

  /** The operation passed the failure on as it came. */
  predicate FailedPlainly(r: Reply, out: Outcome) {
    out.Rejected? && out.error.Plain? && CauseIs(out.error.cause, r)
  }

  predicate NoCode(status: SigningStatus) {
    status.verificationCode == "" && status.verificationMessage == "" && status.signingDeadline == 0
  }

  predicate NoArtifact(status: SigningStatus) {
    && status.containerID == "" && status.signatureID == "" && status.envelopeID == "" && status.slotID == ""
    && status.validation == None
  }

  /** The answer is the state and nothing else. */
  predicate OnlyState(jobID: string, state: State, out: Outcome) {
    && out.Signing? && out.status.jobID == jobID && out.status.state == state
    && NoCode(out.status) && NoArtifact(out.status)
  }

  predicate Foreigner(job: Job, caller: string) {
    caller != "" && job.callerSub != caller
  }

  predicate LocksChain(envelopeID: string, sigFormat: Format) {
    sigFormat == PAdES && envelopeID != ""
  }

  // ---- validation ----

  predicate ReportFits(report: ReportInput, sigID: string, answer: Answer) {
    && report.signatureID == sigID && report.verdict == answer.verdict && report.format == answer.format
    && report.level == answer.level && report.details == answer.details && report.resultRef == ""
  }

  /** Fetch, validate, normalize, store the report, link it; the first failure is the end. */
  predicate ValidationCalls(sigID: string, containerID: string, sigFormat: Format, obo: OnBehalf, own: seq<Exchange>) {
    && |own| > 0 && own[0].call == ToPort(Content(containerID, obo))
    && if !own[0].reply.Blob? then |own| == 1 else CheckingCalls(sigID, own[0].reply.bytes, sigFormat, own[1..])
  }

  /** The bytes are validated under the name of the form they have. */
  predicate CheckingCalls(sigID: string, bytes: Bytes, sigFormat: Format, own: seq<Exchange>) {
    && |own| > 0
    && own[0].call == ToPort(Validate(bytes, if sigFormat == PAdES then DocumentPdf else ContainerAsice))
    && if !own[0].reply.Report? then |own| == 1
       else
         && |own| > 1 && own[1].call == ToPort(NormalizeReport(own[0].reply.report))
         && if !own[1].reply.Normalized? then |own| == 2 else StoringCalls(sigID, own[1].reply.answer, own[2..])
  }

  predicate StoringCalls(sigID: string, answer: Answer, own: seq<Exchange>) {
    && |own| > 0 && own[0].call.ToStore? && own[0].call.s.StoreReport?
    && ReportFits(own[0].call.s.report, sigID, answer)
    && if !own[0].reply.NewId? then |own| == 1
       else
         && |own| == 2
         && own[1].call == ToStore(RecordValidation(sigID, own[0].reply.id, answer.pass, answer.level))
  }

  /** All five calls succeeded. */
  predicate ValidationPassed(own: seq<Exchange>) {
    |own| == 5 && own[4].reply.Ack?
  }

  /** The answer is the one that was normalized, and the id that of the report that was stored. */
  predicate ResultFits(res: ValidationResult, own: seq<Exchange>)
    requires |own| == 5
  {
    && own[2].reply.Normalized? && res.answer == own[2].reply.answer
    && own[3].reply.NewId? && res.reportID == own[3].reply.id
  }

  /** The failure of the call that was the last. */
  predicate ValidationFailure(own: seq<Exchange>, out: Outcome)
    requires |own| > 0
  {
    var r := own[|own| - 1].reply;
    if |own| == 1 then FailedAt(FetchContainer, r, out)
    else if |own| == 2 then FailedAt(ValidateContainer, r, out)
    else if |own| == 3 then FailedPlainly(r, out)
    else if |own| == 4 then FailedAt(PersistReport, r, out)
    else FailedAt(LinkReport, r, out)
  }

  // ---- Begin ----

  predicate MayDrive(login: LoginMethod, flow: Flow) {
    || (login == WebEid && (flow == WebEidFlow || flow == CscEidPlugin))
    || (login == LegacyEid && (flow == LegacyEidFlow || flow == CscEidPlugin))
    || (login == EidScan && (flow == EidScanFlow || flow == CscEidScan))
    || (login == EparakstsMobile && (flow == EparakstsMobileFlow || flow == EparakstsMobileEseal))
  }

  /** The document goes to the provider under its own id, name and type, and in the format decided on. */
  predicate Describes(doc: PrepareDoc, docID: string, meta: Metadata, sigFormat: Format) {
    && doc.documentID == docID && doc.filename == meta.filename && doc.mime == meta.mime
    && doc.signatureFormat == sigFormat
  }

  /** A container's files are its data objects, one by one. */
  predicate SameFiles(files: seq<PrepareFile>, objects: seq<DataObject>) {
    && |files| == |objects|
    && forall i :: 0 <= i < |files| ==>
         && files[i].name == objects[i].name && files[i].digest == objects[i].contentHash
         && files[i].digestAlgorithm == objects[i].algorithm
  }

  predicate HashesNothing(doc: PrepareDoc) {
    doc.documentHash == "" && doc.digestAlgorithm == NoDigest
  }

  predicate SameDigests(digests: seq<DigestOut>, documents: seq<DocRef>) {
    && |digests| == |documents|
    && forall i :: 0 <= i < |digests| ==>
         && digests[i].documentID == documents[i].documentID && digests[i].digest == documents[i].digest
         && digests[i].digestAlgorithm == documents[i].digestAlgorithm
  }

  predicate Saves(save: SaveJobInput, input: BeginInput, sigFormat: Format, prep: PrepareResult) {
    && save.jobID == prep.jobID && save.state == prep.state && save.sigFormat == sigFormat
    && save.envelopeID == input.envelopeID && save.slotID == input.slotID && save.flow == input.flow
    && save.callerSub == input.callerSub && save.loginMethod == input.loginMethod && save.loA == input.loA
  }

  predicate Announces(result: BeginResult, prep: PrepareResult) {
    && result.jobID == prep.jobID && result.state == prep.state && result.authorizeURL == prep.authorizeURL
    && result.signAlgorithm == prep.signAlgorithm && SameDigests(result.documents, prep.documents)
  }

  /** The job is saved before anything is announced. */
  predicate SaveStory(input: BeginInput, sigFormat: Format, prep: PrepareResult, own: seq<Exchange>, out: Outcome) {
    && |own| == 1 && own[0].call.ToStore? && own[0].call.s.SaveJob? && Saves(own[0].call.s.save, input, sigFormat, prep)
    && if !own[0].reply.Ack? then FailedAt(PersistJob, own[0].reply, out)
       else out.Began? && Announces(out.result, prep)
  }

  /** From the prepare on. */
  predicate PreparedStory(input: BeginInput, sigFormat: Format, own: seq<Exchange>, out: Outcome)
    requires |own| > 0
  {
    if !own[0].reply.Prepared? then |own| == 1 && FailedAt(PrepareJob, own[0].reply, out)
    else SaveStory(input, sigFormat, own[0].reply.prep, own[1..], out)
  }

  /** A PDF is sent as its bytes. */
  predicate PdfStory(input: BeginInput, docID: string, meta: Metadata, own: seq<Exchange>, out: Outcome) {
    && |own| > 0 && own[0].call == ToPort(Content(docID, OnBehalf(input.callerSub, input.subjectToken)))
    && if !own[0].reply.Blob? then |own| == 1 && FailedAt(FetchBytes, own[0].reply, out)
       else
         && |own| > 1 && SendsBytes(own[1].call, input, docID, meta, own[0].reply.bytes)
         && PreparedStory(input, PAdES, own[1..], out)
  }

  predicate SendsBytes(call: Call, input: BeginInput, docID: string, meta: Metadata, bytes: Bytes) {
    && call.ToPort? && call.p.PrepareWithFile? && call.p.flow == input.flow && call.p.opts == input.opts
    && Describes(call.p.doc, docID, meta, PAdES) && HashesNothing(call.p.doc)
    && call.p.doc.fileRef == File0 && call.p.doc.files == [] && call.p.file == bytes
  }

  /** A container is sent as the hashes of the files in it, never as one object. */
  predicate ContainerStory(input: BeginInput, docID: string, meta: Metadata, sigFormat: Format, own: seq<Exchange>,
                           out: Outcome) {
    && |own| > 0 && own[0].call == ToPort(DataObjects(docID, OnBehalf(input.callerSub, input.subjectToken)))
    && if !own[0].reply.Objects? then |own| == 1 && FailedAt(FetchObjects, own[0].reply, out)
       else
         && |own| > 1 && SendsFiles(own[1].call, input, docID, meta, sigFormat, own[0].reply.objects)
         && PreparedStory(input, sigFormat, own[1..], out)
  }

  predicate SendsFiles(call: Call, input: BeginInput, docID: string, meta: Metadata, sigFormat: Format,
                       objects: seq<DataObject>) {
    && call.ToPort? && call.p.Prepare? && call.p.flow == input.flow && call.p.opts == input.opts
    && Describes(call.p.doc, docID, meta, sigFormat) && HashesNothing(call.p.doc)
    && call.p.doc.fileRef == NoFile && SameFiles(call.p.doc.files, objects)
  }

  /** Anything else is sent as its own hash. */
  predicate SendsHash(call: Call, input: BeginInput, docID: string, meta: Metadata, sigFormat: Format) {
    && call.ToPort? && call.p.Prepare? && call.p.flow == input.flow && call.p.opts == input.opts
    && Describes(call.p.doc, docID, meta, sigFormat)
    && call.p.doc.documentHash == meta.contentHash && call.p.doc.digestAlgorithm == SHA_256
    && call.p.doc.fileRef == NoFile && call.p.doc.files == []
  }

  /** These calls handed the document over and got this answer. */
  predicate PreparedBy(input: BeginInput, docID: string, meta: Metadata, sigFormat: Format, own: seq<Exchange>,
                       prep: PrepareResult) {
    && |own| > 0 && own[|own| - 1].reply == Prepared(prep)
    && if sigFormat == PAdES then
         |own| == 2 && own[0].reply.Blob? && SendsBytes(own[1].call, input, docID, meta, own[0].reply.bytes)
       else if meta.kind == Container then
         && |own| == 2 && own[0].reply.Objects?
         && SendsFiles(own[1].call, input, docID, meta, sigFormat, own[0].reply.objects)
       else |own| == 1 && SendsHash(own[0].call, input, docID, meta, sigFormat)
  }

  predicate PrepareStory(input: BeginInput, docID: string, meta: Metadata, sigFormat: Format, own: seq<Exchange>,
                         out: Outcome) {
    if sigFormat == PAdES then PdfStory(input, docID, meta, own, out)
    else if meta.kind == Container then ContainerStory(input, docID, meta, sigFormat, own, out)
    else
      && |own| > 0 && SendsHash(own[0].call, input, docID, meta, sigFormat)
      && PreparedStory(input, sigFormat, own, out)
  }

  /** Under the lock, a failure has one more call: the release. */
  predicate UnderLock(input: BeginInput, docID: string, meta: Metadata, own: seq<Exchange>, out: Outcome) {
    if out.Began? then PrepareStory(input, docID, meta, PAdES, own, out)
    else
      && |own| > 0 && own[|own| - 1].call == ToStore(ReleaseChainLock(input.envelopeID, input.slotID))
      && PrepareStory(input, docID, meta, PAdES, own[..|own| - 1], out)
  }

  predicate DocumentStory(input: BeginInput, docID: string, own: seq<Exchange>, out: Outcome) {
    && |own| > 0 && own[0].call == ToPort(GetMetadata(docID, OnBehalf(input.callerSub, input.subjectToken)))
    && if !own[0].reply.Meta? then |own| == 1 && FailedAt(FetchMetadata, own[0].reply, out)
       else
         var meta := own[0].reply.meta;
         var sigFormat := if meta.kind == Container then XAdES else if meta.kind == Pdf then PAdES else input.sigFormat;
         if LocksChain(input.envelopeID, sigFormat) then LockStory(input, docID, meta, own[1..], out)
         else PrepareStory(input, docID, meta, sigFormat, own[1..], out)
  }

  predicate LockStory(input: BeginInput, docID: string, meta: Metadata, own: seq<Exchange>, out: Outcome) {
    && |own| > 0
    && own[0].call == ToStore(AcquireChainLock(input.envelopeID, input.slotID, input.callerSub, 300))
    && if !own[0].reply.Granted? then |own| == 1 && FailedAt(AcquireLock, own[0].reply, out)
       else if !own[0].reply.acquired then |own| == 1 && out == Rejected(ErrSigningInProgress)
       else UnderLock(input, docID, meta, own[1..], out)
  }

  /** What is signed on an envelope is the chain's head, else its root. */
  predicate HeadStory(input: BeginInput, own: seq<Exchange>, out: Outcome) {
    var obo := OnBehalf(input.callerSub, input.subjectToken);
    && |own| > 1 && own[0].call == ToPort(GetEnvelope(input.envelopeID, obo))
    && var view := own[0].reply;
    var root := if view.EnvelopeView? && |view.documents| > 0 && view.documents[0] != "" then view.documents[0]
                else input.documentID;
    && own[1].call == ToPort(CurrentHead(root, obo))
    && if !own[1].reply.Head? then |own| == 2 && FailedAt(ResolveHead, own[1].reply, out)
       else DocumentStory(input, if own[1].reply.headID != "" then own[1].reply.headID else root, own[2..], out)
  }

  predicate BeginStory(wired: bool, input: BeginInput, own: seq<Exchange>, out: Outcome) {
    if input.sigFormat != XAdES && input.sigFormat != PAdES then own == [] && out == Rejected(ErrUnsupportedFormat)
    else if !MayDrive(input.loginMethod, input.flow) then own == [] && out == Rejected(ErrBindingMismatch)
    else if wired && input.envelopeID != "" then HeadStory(input, own, out)
    else DocumentStory(input, input.documentID, own, out)
  }

  // ---- the finalizing pass ----

  /** The i-th document is ready, and none before it is. */
  predicate FirstWithUrl(documents: seq<DocRef>, i: nat) {
    && i < |documents| && documents[i].downloadURL != ""
    && forall j :: 0 <= j < i ==> documents[j].downloadURL == ""
  }

  /** The document a ready job's pass works on: the first ready one, else the first, else none. */
  ghost predicate IsPicked(documents: seq<DocRef>, docID: string) {
    && (forall i: nat :: FirstWithUrl(documents, i) ==> docID == documents[i].documentID)
    && ((forall i :: 0 <= i < |documents| ==> documents[i].downloadURL == "") ==>
          docID == if |documents| > 0 then documents[0].documentID else "")
  }

  /** The answer of a completed pass, validation apart. */
  predicate Completes(status: SigningStatus, job: Job, ref: string, sigID: string) {
    && status.jobID == job.jobID && status.state == COMPLETED && NoCode(status)
    && status.containerID == ref && status.signatureID == sigID
    && status.envelopeID == job.envelopeID && status.slotID == job.slotID
  }

  /** Validation at signing time shows in the answer if it succeeds, and nowhere else. */
  predicate AtSigningStory(job: Job, token: string, ref: string, sigID: string, own: seq<Exchange>, out: Outcome) {
    && ValidationCalls(sigID, ref, job.sigFormat, OnBehalf(job.callerSub, token), own)
    && out.Signing? && Completes(out.status, job, ref, sigID)
    && (out.status.validation.Some? <==> ValidationPassed(own))
    && (ValidationPassed(own) ==> ResultFits(out.status.validation.value, own))
  }

  /** The envelope service, if there is one, is told, and once more if it does not accept. */
  predicate NotifyStory(wired: bool, job: Job, token: string, ref: string, sigID: string, own: seq<Exchange>,
                        out: Outcome) {
    var notice := ToPort(MarkSlotSigned(job.envelopeID, job.slotID, sigID, ref, job.jobID));
    if !wired then AtSigningStory(job, token, ref, sigID, own, out)
    else
      && |own| > 0 && own[0].call == notice
      && if own[0].reply.Ack? then AtSigningStory(job, token, ref, sigID, own[1..], out)
         else |own| > 1 && own[1].call == notice && AtSigningStory(job, token, ref, sigID, own[2..], out)
  }

  predicate Records(input: SignatureInput, job: Job, ref: string) {
    && input.jobID == job.jobID && input.envelopeID == job.envelopeID && input.slotID == job.slotID
    && input.flowUsed == job.flow && input.sigFormat == job.sigFormat && input.signedDocumentRef == ref
    && input.loginMethod == job.loginMethod && input.loA == job.loA
    && !input.validated && input.validationID == "" && input.level == "" && input.timestampRef == ""
    && input.preservationClass == Unspecified
  }

  /** Mark, release, tell, validate. */
  predicate MarkStory(wired: bool, job: Job, token: string, ref: string, sigID: string, own: seq<Exchange>,
                      out: Outcome) {
    && |own| > 0 && own[0].call == ToStore(ReconcileJob(job.jobID, COMPLETED))
    && if !own[0].reply.Ack? then |own| == 1 && FailedAt(MarkCompleted, own[0].reply, out)
       else if LocksChain(job.envelopeID, job.sigFormat) then
         && |own| > 1 && own[1].call == ToStore(ReleaseChainLock(job.envelopeID, job.slotID))
         && NotifyStory(wired, job, token, ref, sigID, own[2..], out)
       else NotifyStory(wired, job, token, ref, sigID, own[1..], out)
  }

  /** The signature is recorded before anything else happens. */
  predicate RecordStory(wired: bool, job: Job, token: string, ref: string, own: seq<Exchange>, out: Outcome) {
    && |own| > 0 && own[0].call.ToStore? && own[0].call.s.InsertSignature? && Records(own[0].call.s.input, job, ref)
    && if !own[0].reply.NewId? then |own| == 1 && FailedAt(RecordSignature, own[0].reply, out)
       else MarkStory(wired, job, token, ref, own[0].reply.id, own[1..], out)
  }

  /** The answer to a store or a merge that did not get in. */
  predicate NotStored(r: Reply, stage: Stage, out: Outcome) {
    if r == Fail(Http(409)) then out == Rejected(ErrChainAdvanced) else FailedAt(stage, r, out)
  }

  /** PAdES: the signed PDF is stored against the document it came for, under that document's name. */
  predicate StoreStory(wired: bool, job: Job, token: string, docID: string, signed: Bytes, own: seq<Exchange>,
                       out: Outcome) {
    var obo := OnBehalf(job.callerSub, token);
    && |own| > 0 && own[0].call == ToPort(GetMetadata(docID, obo))
    && if !own[0].reply.Meta? then |own| == 1 && FailedAt(FetchMetadata, own[0].reply, out)
       else
         && |own| > 1
         && own[1].call ==
            ToPort(StoreSignedDocument(docID, signed, ApplicationPdf, own[0].reply.meta.filename, obo))
         && if own[1].reply.NewId? then RecordStory(wired, job, token, own[1].reply.id, own[2..], out)
            else |own| == 2 && NotStored(own[1].reply, StorePdf, out)
  }

  /** XAdES: the merge, tried again after a 409 as long as tries are left. */
  predicate MergeStory(wired: bool, job: Job, token: string, docID: string, fileless: Bytes, left: nat,
                       own: seq<Exchange>, out: Outcome)
    decreases left
  {
    && |own| > 0 && own[0].call == ToPort(Complete(docID, fileless, OnBehalf(job.callerSub, token)))
    && if own[0].reply == Fail(Http(409)) && left > 0 then
         MergeStory(wired, job, token, docID, fileless, left - 1, own[1..], out)
       else if own[0].reply.NewId? then RecordStory(wired, job, token, own[0].reply.id, own[1..], out)
       else |own| == 1 && NotStored(own[0].reply, CompleteContainer, out)
  }

  predicate ArtifactStory(wired: bool, job: Job, token: string, docID: string, own: seq<Exchange>, out: Outcome) {
    && |own| > 0 && own[0].call == ToPort(Download(job.jobID, docID, if job.sigFormat == PAdES then PAdES else XAdES))
    && if !own[0].reply.Blob? then |own| == 1 && FailedAt(DownloadArtifact, own[0].reply, out)
       else if job.sigFormat == PAdES then StoreStory(wired, job, token, docID, own[0].reply.bytes, own[1..], out)
       else MergeStory(wired, job, token, docID, own[0].reply.bytes, 3, own[1..], out)
  }

  ghost predicate FinalizeStory(wired: bool, job: Job, documents: seq<DocRef>, token: string, own: seq<Exchange>,
                                out: Outcome) {
    forall docID :: IsPicked(documents, docID) ==>
                      if docID == "" then own == [] && out == Rejected(ErrProviderState)
                      else ArtifactStory(wired, job, token, docID, own, out)
  }

  // ---- the poll ----

  /** What a poll says while the provider is at work, or has failed. */
  predicate Relays(jobID: string, st: StatusResult, out: Outcome) {
    && out.Signing? && out.status.jobID == jobID && out.status.state == st.state && NoArtifact(out.status)
    && if st.state == FAILED then NoCode(out.status)
       else
         && out.status.verificationCode == st.verificationCode
         && out.status.verificationMessage == st.verificationMessage
         && out.status.signingDeadline == st.signingDeadline
  }

  /** Once the provider's state is noted. */
  ghost predicate NotedStory(wired: bool, jobID: string, job: Job, token: string, st: StatusResult, own: seq<Exchange>,
                             out: Outcome) {
    if st.state == READY then FinalizeStory(wired, job, st.documents, token, own, out)
    else
      && Relays(jobID, st, out)
      && if st.state != FAILED && LocksChain(job.envelopeID, job.sigFormat) then
           && |own| == 1
           && own[0].call == ToStore(AcquireChainLock(job.envelopeID, job.slotID, job.callerSub, 300))
         else own == []
  }

  /** The provider is asked, and its state is noted. */
  ghost predicate AskStory(wired: bool, jobID: string, job: Job, wait: int, token: string, own: seq<Exchange>,
                           out: Outcome) {
    && |own| > 0 && own[0].call == ToPort(Status(jobID, wait))
    && if !own[0].reply.Provider? then |own| == 1 && FailedAt(ProviderStatus, own[0].reply, out)
       else
         var st := own[0].reply.status;
         && |own| > 1 && own[1].call == ToStore(ReconcileJob(jobID, st.state))
         && if !own[1].reply.Ack? then |own| == 2 && FailedAt(ReconcileState, own[1].reply, out)
            else NotedStory(wired, jobID, job, token, st, own[2..], out)
  }

  ghost predicate PollStory(wired: bool, jobID: string, wait: int, caller: string, token: string, own: seq<Exchange>,
                            out: Outcome) {
    && |own| > 0 && own[0].call == ToStore(GetJob(jobID))
    && if !own[0].reply.JobRow? then |own| == 1 && FailedPlainly(own[0].reply, out)
       else
         var job := own[0].reply.job;
         if Foreigner(job, caller) then |own| == 1 && out == Rejected(ErrForbidden)
         else if job.state == COMPLETED || job.state == FAILED then |own| == 1 && OnlyState(jobID, job.state, out)
         else AskStory(wired, jobID, job, wait, token, own[1..], out)
  }

  // ---- on-demand validation, abandoning, submitting ----

  predicate OnDemandStory(sigID: string, sig: Signature, job: Job, token: string, own: seq<Exchange>, out: Outcome) {
    && ValidationCalls(sigID, sig.signedDocumentRef, job.sigFormat, OnBehalf(job.callerSub, token), own)
    && if ValidationPassed(own) then out.Validated? && out.sig == sig && ResultFits(out.res, own)
       else ValidationFailure(own, out)
  }

  predicate ValidateStory(sigID: string, caller: string, token: string, own: seq<Exchange>, out: Outcome) {
    && |own| > 0 && own[0].call == ToStore(GetSignature(sigID))
    && if !own[0].reply.SignatureRow? then |own| == 1 && FailedPlainly(own[0].reply, out)
       else
         var sig := own[0].reply.sig;
         && |own| > 1 && own[1].call == ToStore(GetJob(sig.jobID))
         && if !own[1].reply.JobRow? then |own| == 2 && FailedPlainly(own[1].reply, out)
            else if Foreigner(own[1].reply.job, caller) then |own| == 2 && out == Rejected(ErrForbidden)
            else if sig.signedDocumentRef == "" then |own| == 2 && out == Rejected(ErrProviderState)
            else OnDemandStory(sigID, sig, own[1].reply.job, token, own[2..], out)
  }

  predicate AbandonStory(jobID: string, caller: string, own: seq<Exchange>, out: Outcome) {
    && |own| > 0 && own[0].call == ToStore(GetJob(jobID))
    && if !own[0].reply.JobRow? then |own| == 1 && FailedPlainly(own[0].reply, out)
       else
         var job := own[0].reply.job;
         if Foreigner(job, caller) then |own| == 1 && out == Rejected(ErrForbidden)
         else
           && out == Outcome.Abandoned
           && if LocksChain(job.envelopeID, job.sigFormat) then
                |own| == 2 && own[1].call == ToStore(ReleaseChainLock(job.envelopeID, job.slotID))
              else |own| == 1
  }

  predicate SubmitStory(jobID: string, sigs: seq<ClientSignature>, caller: string, own: seq<Exchange>, out: Outcome) {
    && |own| > 0 && own[0].call == ToStore(GetJob(jobID))
    && if !own[0].reply.JobRow? then |own| == 1 && FailedPlainly(own[0].reply, out)
       else if Foreigner(own[0].reply.job, caller) then |own| == 1 && out == Rejected(ErrForbidden)
       else
         && |own| > 1 && own[1].call == ToPort(Submit(jobID, sigs))
         && if !own[1].reply.Provider? then |own| == 2 && FailedAt(SubmitSignature, own[1].reply, out)
            else
              var state := own[1].reply.status.state;
              && |own| == 3 && own[2].call == ToStore(ReconcileJob(jobID, state))
              && if !own[2].reply.Ack? then FailedAt(ReconcileState, own[2].reply, out)
                 else OnlyState(jobID, state, out)
  }
}
