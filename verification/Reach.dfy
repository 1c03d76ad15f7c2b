/** What an operation knows survives everybody else's steps, and follows from the reply to its own; and the validation
    links every record shows are those the history holds. */
module Reachable {
  import opened Protocol
  import opened Binding
  import opened StoreSpec
  import opened Choreography
  import opened Solo
  import opened Worlds
  import opened Invariants
  import opened Documents

  predicate WorldGrows(w: World, v: World) {
    && v.wired == w.wired && Grows(w.env, v.env)
    && (forall id :: id in w.hist.evidence ==> id in v.hist.evidence && v.hist.evidence[id] == w.hist.evidence[id])
    && (forall j :: j in w.hist.marks ==> j in v.hist.marks)
  }

  /** The answers the history keeps are those of stored reports. */
  predicate EvidenceOK(w: World) {
    forall id :: id in w.hist.evidence ==> id in w.env.store.reports
  }

  predicate OpsOK(w: World) {
    forall id :: id in w.ops ==> OpOK(w, w.ops[id])
  }

  // ---- what an operation knows survives everybody else's steps ----

  lemma KnownStays(e: Env, f: Env, job: Job)
    requires Grows(e, f) && Known(e, job)
    ensures Known(f, job)
  {
  }

  lemma RecordStays(e: Env, f: Env, job: Job, ref: string, sigID: string)
    requires Grows(e, f) && IsRecordOf(e, job, ref, sigID)
    ensures IsRecordOf(f, job, ref, sigID)
  {
  }

  lemma PdfOfStays(e: Env, f: Env, job: Job, signed: Bytes)
    requires Grows(e, f) && IsPdfOf(e, job, signed)
    ensures IsPdfOf(f, job, signed)
  {
  }

  lemma RightDocStays(e: Env, f: Env, job: Job, docID: string)
    requires Grows(e, f) && RightDoc(e, job, docID)
    ensures RightDoc(f, job, docID)
  {
  }

  lemma FinalizeStays(w: World, v: World, job: Job, f: Finalizing)
    requires DocsOK(w.env) && DocsOK(v.env) && WorldGrows(w, v) && FinalizeOK(w, job, f)
    ensures FinalizeOK(v, job, f)
  {
    hide DocsOK, Grows, Known, Landed, IsRecordOf, IsPdfOf, RightDoc;
    KnownStays(w.env, v.env, job);
    match f
    case FDownload(docID) => RightDocStays(w.env, v.env, job, docID);
    case FMeta(docID, signed) =>
      PdfOfStays(w.env, v.env, job, signed);
      RightDocStays(w.env, v.env, job, docID);
    case FStore(docID, signed, _) =>
      PdfOfStays(w.env, v.env, job, signed);
      RightDocStays(w.env, v.env, job, docID);
    case FComplete(docID, _, _) => RightDocStays(w.env, v.env, job, docID);
    case FInsert(ref) => LandedStays(w.env, v.env, job, ref);
    case FMark(ref, sigID) => RecordStays(w.env, v.env, job, ref, sigID);
    case FRelease(ref, sigID) => RecordStays(w.env, v.env, job, ref, sigID);
    case FNotify(ref, sigID, _) => RecordStays(w.env, v.env, job, ref, sigID);
  }

  lemma BeginStays(e: Env, f: Env, input: BeginInput, b: Beginning)
    requires Grows(e, f) && BeginOK(e, input, b)
    ensures BeginOK(f, input, b)
  {
    match b
    case BPrepareFile(docID, _, file) =>
      HandedOutStays(e, f, docID, file);
      hide HandedOut, Grows;
    case BAcquire(docID, meta) => assert docID in e.docs ==> DocMoves(f, e.docs[docID], f.docs[docID]);
    case BContent(docID, meta) => assert docID in e.docs ==> DocMoves(f, e.docs[docID], f.docs[docID]);
    case _ =>
  }

  lemma OpStays(w: World, v: World, op: Op)
    requires EnvOK(w.env) && EnvOK(v.env) && WorldGrows(w, v) && OpOK(w, op)
    ensures OpOK(v, op)
  {
    hide DocsOK, RowsOK, BeginOK, FinalizeOK;
    match op
    case InBegin(input, b) => BeginStays(w.env, v.env, input, b);
    case InFinalize(job, _, f) => FinalizeStays(w, v, job, f);
    case _ =>
  }

  // ---- what it knows after its own call ----

  /** The world right after `op` made its call, apart from the operations in flight. */
  predicate After(w: World, op: Op, a: Answering, v: World)
    requires !op.Done?
  {
    && Answerable(w.env, Request(op), a)
    && v.wired == w.wired
    && v.env == Effect(w.env, Request(op), a)
    && v.hist == Note(w.hist, w.env.now, op, a, Resume(w.wired, op, ReplyTo(w.env, Request(op), a)))
  }

  predicate Fine(w: World, op: Op) {
    op.Done? || OpOK(w, op)
  }

  lemma BeginResumes(w: World, input: BeginInput, b: Beginning, a: Answering, v: World)
    requires EnvOK(w.env) && BeginOK(w.env, input, b) && After(w, InBegin(input, b), a, v) && Grows(w.env, v.env)
    ensures Fine(v, ResumeBegin(input, b, ReplyTo(w.env, BeginCall(input, b), a)))
  {
    match b
    case BContent(_, _) => ContentResumes(w, input, b, a, v);
    case BPrepare(_, _, _) => PrepareResumes(w, input, b, a, v);
    case BPrepareFile(_, _, _) => PrepareResumes(w, input, b, a, v);
    case BMeta(_) => MetaResumes(w, input, b, a, v);
    case BAcquire(_, _) => AcquireResumes(w, input, b, a, v);
    case _ =>
      BeginStays(w.env, v.env, input, b);
      OtherBeginResumes(v, input, b, ReplyTo(w.env, BeginCall(input, b), a));
    hide *;
  }

  lemma MetaResumes(w: World, input: BeginInput, b: Beginning, a: Answering, v: World)
    requires BeginOK(w.env, input, b) && After(w, InBegin(input, b), a, v) && b.BMeta?
    ensures Fine(v, ResumeBegin(input, b, ReplyTo(w.env, BeginCall(input, b), a)))
  {
    hide Note;
  }

  lemma AcquireResumes(w: World, input: BeginInput, b: Beginning, a: Answering, v: World)
    requires BeginOK(w.env, input, b) && After(w, InBegin(input, b), a, v) && b.BAcquire?
    ensures Fine(v, ResumeBegin(input, b, ReplyTo(w.env, BeginCall(input, b), a)))
  {
    hide Note, Apply;
    assert v.env.docs == w.env.docs;
  }

  /** Elsewhere nothing about the world is learned, nor needed. */
  lemma OtherBeginResumes(v: World, input: BeginInput, b: Beginning, r: Reply)
    requires BeginOK(v.env, input, b)
    requires b.BEnvelope? || b.BHead? || b.BObjects? || b.BSave? || b.BUndo?
    ensures Fine(v, ResumeBegin(input, b, r))
  {
  }

  lemma ContentResumes(w: World, input: BeginInput, b: Beginning, a: Answering, v: World)
    requires EnvOK(w.env) && BeginOK(w.env, input, b) && After(w, InBegin(input, b), a, v) && b.BContent?
    ensures Fine(v, ResumeBegin(input, b, ReplyTo(w.env, BeginCall(input, b), a)))
  {
    if b.docID in w.env.docs {
      assert DocOK(w.env, b.docID) && ChainOK(w.env, w.env.docs[b.docID].root);
    }
    hide EnvOK;
  }

  lemma PrepareResumes(w: World, input: BeginInput, b: Beginning, a: Answering, v: World)
    requires BeginOK(w.env, input, b) && After(w, InBegin(input, b), a, v) && (b.BPrepare? || b.BPrepareFile?)
    ensures Fine(v, ResumeBegin(input, b, ReplyTo(w.env, BeginCall(input, b), a)))
  {
  }

  lemma ReconcileResumes(w: World, jobID: string, r: Polling, a: Answering, v: World)
    requires EnvOK(w.env) && ReconcileOK(w.env, jobID, r) && After(w, InReconcile(jobID, r), a, v)
    requires Grows(w.env, v.env)
    ensures Fine(v, ResumeReconcile(jobID, r, ReplyTo(w.env, ReconcileCall(jobID, r), a)))
  {
    hide EnvOK, Grows, After, Fine, ReplyTo, ReconcileCall, ResumeReconcile, Known;
    match r
    case RGet(_, _, _) => GetResumes(w, jobID, r, a, v);
    case RStatus(_, _, _) => StatusResumes(w, jobID, r, a, v);
    case RNote(_, _, _) => NoteResumes(w, jobID, r, a, v);
    case RKeep(_, _) => KeepResumes(w, jobID, r, a, v);
  }

  lemma GetResumes(w: World, jobID: string, r: Polling, a: Answering, v: World)
    requires EnvOK(w.env) && r.RGet? && After(w, InReconcile(jobID, r), a, v)
    ensures Fine(v, ResumeReconcile(jobID, r, ReplyTo(w.env, ReconcileCall(jobID, r), a)))
  {
    hide DocsOK, SignatureOK;
    if jobID in w.env.store.jobs {
      assert JobOK(w.env, jobID);
    }
  }

  lemma StatusResumes(w: World, jobID: string, r: Polling, a: Answering, v: World)
    requires EnvOK(w.env) && r.RStatus? && ReconcileOK(w.env, jobID, r) && After(w, InReconcile(jobID, r), a, v)
    requires Grows(w.env, v.env)
    ensures Fine(v, ResumeReconcile(jobID, r, ReplyTo(w.env, ReconcileCall(jobID, r), a)))
  {
    assert JobOK(w.env, jobID);
    KnownStays(w.env, v.env, r.job);
    StatusEchoes(w, jobID, r, a, v);
    hide EnvOK, Grows, After, Known, Echoed;
  }

  lemma StatusEchoes(w: World, jobID: string, r: Polling, a: Answering, v: World)
    requires r.RStatus? && After(w, InReconcile(jobID, r), a, v)
    ensures v.env == w.env
    ensures var reply := ReplyTo(w.env, ReconcileCall(jobID, r), a);
            reply.Provider? ==> Echoed(w.env, jobID, reply.status.documents)
  {
    hide Echoed;
  }

  lemma KeepResumes(w: World, jobID: string, r: Polling, a: Answering, v: World)
    requires r.RKeep? && After(w, InReconcile(jobID, r), a, v)
    ensures Fine(v, ResumeReconcile(jobID, r, ReplyTo(w.env, ReconcileCall(jobID, r), a)))
  {
  }

  lemma NoteResumes(w: World, jobID: string, r: Polling, a: Answering, v: World)
    requires r.RNote? && ReconcileOK(w.env, jobID, r) && After(w, InReconcile(jobID, r), a, v)
    requires Grows(w.env, v.env)
    ensures Fine(v, ResumeReconcile(jobID, r, ReplyTo(w.env, ReconcileCall(jobID, r), a)))
  {
    KnownStays(w.env, v.env, r.job);
    ReadyIsNamed(r.st.documents);
    if r.st.documents != [] {
      assert RightDoc(w.env, r.job, ReadyDocID(r.st.documents));
      RightDocStays(w.env, v.env, r.job, ReadyDocID(r.st.documents));
    }
    hide Grows, After;
  }

  lemma FinalizeResumes(w: World, job: Job, token: string, f: Finalizing, a: Answering, v: World)
    requires EnvOK(w.env) && FinalizeOK(w, job, f) && After(w, InFinalize(job, token, f), a, v)
    requires EnvOK(v.env) && WorldGrows(w, v)
    ensures Fine(v, ResumeFinalize(w.wired, job, token, f, ReplyTo(w.env, FinalizeCall(job, token, f), a)))
  {
    hide DocsOK, RowsOK, Grows;
    KnownStays(w.env, v.env, job);
    match f
    case FDownload(_) => DownloadResumes(w, job, token, f, a, v);
    case FStore(_, _, _) => StoreResumes(w, job, token, f, a, v);
    case FComplete(_, _, _) => CompleteResumes(w, job, token, f, a, v);
    case FMeta(_, signed) => PdfOfStays(w.env, v.env, job, signed);
    case _ => RecordResumes(w, job, token, f, a, v);
  }

  lemma DownloadResumes(w: World, job: Job, token: string, f: Finalizing, a: Answering, v: World)
    requires EnvOK(w.env) && FinalizeOK(w, job, f) && After(w, InFinalize(job, token, f), a, v) && f.FDownload?
    requires Known(v.env, job)
    ensures Fine(v, ResumeFinalize(w.wired, job, token, f, ReplyTo(w.env, FinalizeCall(job, token, f), a)))
  {
    assert JobOK(w.env, job.jobID);
    DownloadGives(w, job, token, f, a, v);
    hide EnvOK, After, Known, ReplyTo, FinalizeCall, IsPdfOf, RightDoc;
  }

  /** The provider's artifact is the job's own. */
  lemma DownloadGives(w: World, job: Job, token: string, f: Finalizing, a: Answering, v: World)
    requires After(w, InFinalize(job, token, f), a, v) && f.FDownload?
    ensures v.env == w.env
    ensures var r := ReplyTo(w.env, FinalizeCall(job, token, f), a);
            r.Blob? ==> if job.sigFormat == PAdES then IsPdfOf(w.env, job, r.bytes) else r.bytes == Fileless(job.jobID)
  {
    hide Note;
  }

  lemma StoreResumes(w: World, job: Job, token: string, f: Finalizing, a: Answering, v: World)
    requires EnvOK(w.env) && FinalizeOK(w, job, f) && After(w, InFinalize(job, token, f), a, v) && f.FStore?
    requires Known(v.env, job)
    ensures Fine(v, ResumeFinalize(w.wired, job, token, f, ReplyTo(w.env, FinalizeCall(job, token, f), a)))
  {
    hide EnvOK, Grows;
    if a.delivery.Served? && a.reply.NewId? {
      PdfKeeps(w.env, f.docID, f.signed, a.reply.id);
    }
  }

  lemma CompleteResumes(w: World, job: Job, token: string, f: Finalizing, a: Answering, v: World)
    requires EnvOK(w.env) && FinalizeOK(w, job, f) && After(w, InFinalize(job, token, f), a, v) && f.FComplete?
    requires Known(v.env, job)
    ensures Fine(v, ResumeFinalize(w.wired, job, token, f, ReplyTo(w.env, FinalizeCall(job, token, f), a)))
  {
    hide EnvOK, Grows;
    if a.delivery.Served? && a.reply.NewId? {
      MergeKeeps(w.env, f.docID, f.fileless, a.reply.id);
    }
  }

  lemma RecordResumes(w: World, job: Job, token: string, f: Finalizing, a: Answering, v: World)
    requires FinalizeOK(w, job, f) && After(w, InFinalize(job, token, f), a, v)
    requires f.FInsert? || f.FMark? || f.FRelease? || f.FNotify?
    requires Known(v.env, job) && WorldGrows(w, v)
    ensures Fine(v, ResumeFinalize(w.wired, job, token, f, ReplyTo(w.env, FinalizeCall(job, token, f), a)))
  {
    if f.FInsert? {
      InsertResumes(w, job, token, f, a, v);
    } else {
      MarkedResumes(w, job, token, f, a, v);
    }
    hide *;
  }

  lemma MarkedResumes(w: World, job: Job, token: string, f: Finalizing, a: Answering, v: World)
    requires FinalizeOK(w, job, f) && After(w, InFinalize(job, token, f), a, v)
    requires f.FMark? || f.FRelease? || f.FNotify?
    requires Known(v.env, job) && WorldGrows(w, v)
    ensures Fine(v, ResumeFinalize(w.wired, job, token, f, ReplyTo(w.env, FinalizeCall(job, token, f), a)))
  {
    hide After, Grows, IsRecordOf, Known, ValidationOK, ReplyTo, FinalizeCall;
    RecordStays(w.env, v.env, job, f.ref, f.sigID);
    MarksGrow(w, job, token, f, a, v);
    RecordCanBeValidated(v, job, token, f.ref, f.sigID);
    hide WorldGrows;
  }

  lemma RecordCanBeValidated(v: World, job: Job, token: string, ref: string, sigID: string)
    requires IsRecordOf(v.env, job, ref, sigID)
    ensures ValidationOK(v, AtSigningValidation(job, token, ref, sigID), VContent)
  {
  }

  /** A mark that was answered is in the history. */
  lemma MarksGrow(w: World, job: Job, token: string, f: Finalizing, a: Answering, v: World)
    requires After(w, InFinalize(job, token, f), a, v)
    ensures f.FMark? && ReplyTo(w.env, FinalizeCall(job, token, f), a).Ack? ==> job.jobID in v.hist.marks
    ensures v.wired == w.wired
  {
    hide Effect, Apply;
  }

  lemma InsertResumes(w: World, job: Job, token: string, f: Finalizing, a: Answering, v: World)
    requires After(w, InFinalize(job, token, f), a, v) && f.FInsert? && Known(v.env, job)
    ensures Fine(v, ResumeFinalize(w.wired, job, token, f, ReplyTo(w.env, FinalizeCall(job, token, f), a)))
  {
    hide Known;
  }

  lemma ValidationResumes(w: World, q: Validation, at: Validating, a: Answering, v: World)
    requires ValidationOK(w, q, at) && After(w, InValidation(q, at), a, v)
    requires WorldGrows(w, v)
    ensures Fine(v, ResumeValidation(q, at, ReplyTo(w.env, ValidationCall(q, at), a)))
  {
    ContainerStays(w, v, q);
    if at.VStore? {
      ReportResumes(w, q, at, a, v);
    } else {
      hide WorldGrows, After, ReplyTo, ValidationCall;
    }
  }

  lemma ContainerStays(w: World, v: World, q: Validation)
    requires ValidationOK(w, q, VContent) && WorldGrows(w, v)
    ensures ValidationOK(v, q, VContent)
  {
  }

  /** The stored report is the evidence that will be linked. */
  lemma ReportResumes(w: World, q: Validation, at: Validating, a: Answering, v: World)
    requires at.VStore? && After(w, InValidation(q, at), a, v) && ValidationOK(v, q, VContent)
    ensures Fine(v, ResumeValidation(q, at, ReplyTo(w.env, ValidationCall(q, at), a)))
  {
  }

  lemma ValidateResumes(w: World, sigID: string, caller: string, token: string, d: Asking, a: Answering, v: World)
    requires EnvOK(w.env) && OpOK(w, InValidate(sigID, caller, token, d))
    requires After(w, InValidate(sigID, caller, token, d), a, v)
    ensures Fine(v, ResumeValidate(sigID, caller, token, d, ReplyTo(w.env, ValidateCall(sigID, d), a)))
  {
    AskingChangesNoRow(w, InValidate(sigID, caller, token, d), a, v);
    if d.DSig? {
      SigResumes(w, sigID, caller, token, d, a, v);
    } else {
      JobIsOfSig(w, sigID, d);
      JobResumes(w, sigID, caller, token, d, a, v);
    }
    hide *;
  }

  lemma SigResumes(w: World, sigID: string, caller: string, token: string, d: Asking, a: Answering, v: World)
    requires d.DSig? && v.env.store == w.env.store
    ensures Fine(v, ResumeValidate(sigID, caller, token, d, ReplyTo(w.env, ValidateCall(sigID, d), a)))
  {
  }

  /** The record's own row is that of its job. */
  lemma JobIsOfSig(w: World, sigID: string, d: Asking)
    requires EnvOK(w.env) && d.DJob? && sigID in w.env.store.sigs && SameRecord(d.sig, w.env.store.sigs[sigID])
    ensures d.sig.jobID in w.env.store.jobs && w.env.store.jobs[d.sig.jobID].sigFormat == d.sig.sigFormat
  {
    hide DocsOK, Landed;
    assert SignatureOK(w.env, sigID);
  }

  lemma JobResumes(w: World, sigID: string, caller: string, token: string, d: Asking, a: Answering, v: World)
    requires d.DJob? && v.env.store == w.env.store
    requires sigID in w.env.store.sigs && SameRecord(d.sig, w.env.store.sigs[sigID])
    requires d.sig.jobID in w.env.store.jobs && w.env.store.jobs[d.sig.jobID].sigFormat == d.sig.sigFormat
    ensures Fine(v, ResumeValidate(sigID, caller, token, d, ReplyTo(w.env, ValidateCall(sigID, d), a)))
  {
  }

  lemma AskingChangesNoRow(w: World, op: Op, a: Answering, v: World)
    requires op.InValidate? && After(w, op, a, v)
    ensures v.env.store == w.env.store
  {
    EffectOnStore(w.env, Request(op), a);
    hide Effect, Note, Resume;
  }

  lemma AbandonResumes(w: World, b: Abandoning, a: Answering, v: World)
    requires EnvOK(w.env) && After(w, InAbandon(b), a, v)
    ensures Fine(v, ResumeAbandon(b, ReplyTo(w.env, AbandonCall(b), a)))
  {
    hide DocsOK;
    if b.AGet? && b.jobID in w.env.store.jobs {
      assert JobOK(w.env, b.jobID);
    }
  }

  lemma SubmitResumes(v: World, jobID: string, s: Submitting, r: Reply)
    ensures Fine(v, ResumeSubmit(jobID, s, r))
  {
  }

  lemma OpResumes(w: World, op: Op, a: Answering, v: World)
    requires EnvOK(w.env) && OpOK(w, op) && After(w, op, a, v)
    requires EnvOK(v.env) && WorldGrows(w, v)
    ensures Fine(v, Resume(w.wired, op, ReplyTo(w.env, Request(op), a)))
  {
    hide EnvOK, Grows, Fine, BeginOK, ReconcileOK, FinalizeOK, ValidationOK, Effect, Note, ReplyTo;
    hide BeginCall, ReconcileCall, FinalizeCall, ValidationCall, ValidateCall, AbandonCall, SubmitCall;
    hide ResumeBegin, ResumeReconcile, ResumeFinalize, ResumeValidation, ResumeValidate, ResumeAbandon, ResumeSubmit;
    match op
    case InBegin(input, b) => BeginResumes(w, input, b, a, v);
    case InReconcile(jobID, r) => ReconcileResumes(w, jobID, r, a, v);
    case InFinalize(job, token, f) => FinalizeResumes(w, job, token, f, a, v);
    case InValidation(q, at) => ValidationResumes(w, q, at, a, v);
    case InValidate(sigID, caller, token, d) => ValidateResumes(w, sigID, caller, token, d, a, v);
    case InAbandon(b) => AbandonResumes(w, b, a, v);
    case InSubmit(jobID, b) => SubmitResumes(v, jobID, b, ReplyTo(w.env, SubmitCall(jobID, b), a));
  }

  // ---- validation links ----

  /** The level of the most recent answer that had one. */
  function LastLevel(ids: seq<string>, evidence: map<string, Answer>): string {
    if |ids| == 0 then ""
    else if Last(ids) in evidence && evidence[Last(ids)].level != "" then evidence[Last(ids)].level
    else LastLevel(ids[..|ids| - 1], evidence)
  }

  lemma {:induction false} LastLevelStays(ids: seq<string>, e: map<string, Answer>, f: map<string, Answer>)
    requires forall i :: 0 <= i < |ids| ==> ids[i] in e
    requires forall id :: id in e ==> id in f && f[id] == e[id]
    ensures LastLevel(ids, e) == LastLevel(ids, f)
  {
    if |ids| > 0 {
      LastLevelStays(ids[..|ids| - 1], e, f);
    }
  }

  /** A signature's validation fields are those of the last report linked to it, its level that of the last one
      that had a level, and every linked report is about this signature. */
  predicate LinkOK(w: World, id: string)
    requires id in w.env.store.sigs
  {
    var s, ids := w.env.store.sigs[id], LinksOf(w.hist, id);
    && (forall i :: 0 <= i < |ids| ==> IsEvidence(w, id, ids[i]))
    && s.validationID == (if |ids| == 0 then "" else Last(ids))
    && s.validated == (|ids| > 0 && w.hist.evidence[Last(ids)].pass)
    && s.level == LastLevel(ids, w.hist.evidence)
  }

  predicate LinksOK(w: World) {
    && (forall id :: id in w.env.store.sigs ==> LinkOK(w, id))
    && (forall id :: id in w.hist.links ==> id in w.env.store.sigs)
  }

  predicate SameLinks(w: World, v: World, id: string) {
    && id in w.env.store.sigs && id in v.env.store.sigs
    && v.env.store.sigs[id] == w.env.store.sigs[id] && LinksOf(v.hist, id) == LinksOf(w.hist, id)
  }

  lemma LinkStays(w: World, v: World, id: string)
    requires WorldGrows(w, v) && SameLinks(w, v, id) && LinkOK(w, id)
    ensures LinkOK(v, id)
  {
    var ids := LinksOf(w.hist, id);
    assert forall i :: 0 <= i < |ids| ==> IsEvidence(w, id, ids[i]);
    LastLevelStays(ids, w.hist.evidence, v.hist.evidence);
  }

  predicate Links(op: Op) { op.InValidation? && op.at.VLink? }

  /** Which operation makes which kind of write. */
  lemma WhoWrites(op: Op)
    requires !op.Done?
    ensures Request(op).ToStore? && Request(op).s.InsertSignature? <==> Recording(op)
    ensures Request(op).ToStore? && Request(op).s.RecordValidation? <==> Links(op)
    ensures Request(op).ToStore? && Request(op).s.StoreReport? <==> op.InValidation? && op.at.VStore?
  {
  }

  lemma EffectOnStore(e: Env, call: Call, a: Answering)
    requires Answerable(e, call, a)
    ensures Effect(e, call, a).store ==
            if Effective(a) && call.ToStore? then Apply(e.store, e.now, a.newID, call.s).0 else e.store
    ensures Effect(e, call, a).now == e.now
  {
    hide Apply;
  }

  lemma ApplyOnSigs(s: StoreState, now: int, newID: string, call: StoreCall)
    ensures Apply(s, now, newID, call).0.sigs ==
      if call.InsertSignature? then s.sigs[newID := SignatureOf(newID, call.input)]
      else if call.RecordValidation? && call.signatureID in s.sigs then
        s.sigs[call.signatureID := Link(s.sigs[call.signatureID], call.validationID, call.validated, call.level)]
      else s.sigs
  {
  }

  /** The signature rows after a step. */
  lemma SigsAfter(w: World, op: Op, a: Answering, v: World)
    requires !op.Done? && After(w, op, a, v)
    ensures v.env.store.sigs ==
      if Recording(op) && Effective(a) then
        w.env.store.sigs[a.newID := SignatureOf(a.newID, SignatureInputOf(op.job, op.f.ref))]
      else if Links(op) && Effective(a) && op.v.sigID in w.env.store.sigs then
        w.env.store.sigs[op.v.sigID :=
          Link(w.env.store.sigs[op.v.sigID], op.at.reportID, op.at.answer.pass, op.at.answer.level)]
      else w.env.store.sigs
    ensures v.hist.links == if Effective(a) then NoteLinks(w.hist, op) else w.hist.links
  {
    WhoWrites(op);
    EffectOnStore(w.env, Request(op), a);
    hide Apply, Effect, Resume, ReplyTo, Answerable;
    if Request(op).ToStore? {
      ApplyOnSigs(w.env.store, w.env.now, a.newID, Request(op).s);
    }
  }

  /** Only linking a report changes a signature's validation fields or its list of links. */
  lemma OthersLeaveLinks(w: World, op: Op, a: Answering, v: World, id: string)
    requires !op.Done? && After(w, op, a, v) && id in w.env.store.sigs
    requires Links(op) && Effective(a) ==> id != op.v.sigID
    requires Recording(op) && Effective(a) ==> FreshId(w.env.store, a.newID)
    ensures SameLinks(w, v, id)
  {
    SigsAfter(w, op, a, v);
    hide After;
  }

  lemma LinkLinks(w: World, op: Op, a: Answering, v: World)
    requires Links(op) && Effective(a) && OpOK(w, op) && After(w, op, a, v) && WorldGrows(w, v)
    requires LinkOK(w, op.v.sigID)
    ensures op.v.sigID in v.env.store.sigs && LinkOK(v, op.v.sigID)
  {
    SigsAfter(w, op, a, v);
    EvidenceStays(w, v, op.v.sigID, op.at.reportID);
    hide After, WorldGrows, Effective, LinkOK, IsEvidence;
    OneMoreLink(w, v, op.v.sigID, op.at.reportID, op.at.answer);
  }

  /** One more report linked: the record shows it. */
  lemma OneMoreLink(w: World, v: World, id: string, reportID: string, answer: Answer)
    requires WorldGrows(w, v) && id in w.env.store.sigs && LinkOK(w, id)
    requires IsEvidence(v, id, reportID) && v.hist.evidence[reportID] == answer
    requires v.env.store.sigs == w.env.store.sigs[id := Link(w.env.store.sigs[id], reportID, answer.pass, answer.level)]
    requires v.hist.links == w.hist.links[id := LinksOf(w.hist, id) + [reportID]]
    ensures LinkOK(v, id)
  {
    var old', ids := LinksOf(w.hist, id), LinksOf(v.hist, id);
    assert ids == old' + [reportID] && ids[..|ids| - 1] == old';
    assert forall i :: 0 <= i < |old'| ==> IsEvidence(w, id, old'[i]);
    OldEvidenceStays(w, v, id, old');
    LastLevelStays(old', w.hist.evidence, v.hist.evidence);
    hide WorldGrows, IsEvidence;
  }

  lemma OldEvidenceStays(w: World, v: World, id: string, ids: seq<string>)
    requires WorldGrows(w, v) && forall i :: 0 <= i < |ids| ==> IsEvidence(w, id, ids[i])
    ensures forall i :: 0 <= i < |ids| ==> IsEvidence(v, id, ids[i])
    ensures forall i :: 0 <= i < |ids| ==> ids[i] in w.hist.evidence
    ensures forall i :: i in w.hist.evidence ==> i in v.hist.evidence && v.hist.evidence[i] == w.hist.evidence[i]
  {
    assert forall i :: 0 <= i < |ids| ==> ids[i] in w.hist.evidence;
    hide IsEvidence, Grows;
    forall i | 0 <= i < |ids| ensures IsEvidence(v, id, ids[i]) {
      EvidenceStays(w, v, id, ids[i]);
    }
  }

  lemma EvidenceStays(w: World, v: World, sigID: string, reportID: string)
    requires WorldGrows(w, v) && IsEvidence(w, sigID, reportID)
    ensures IsEvidence(v, sigID, reportID) && v.hist.evidence[reportID] == w.hist.evidence[reportID]
  {
  }

  /** A new record has no validation yet. */
  lemma InsertLinks(w: World, op: Op, a: Answering, v: World, id: string)
    requires !op.Done? && After(w, op, a, v) && LinksOK(w)
    requires id in v.env.store.sigs && id !in w.env.store.sigs
    ensures LinkOK(v, id)
  {
    SigsAfter(w, op, a, v);
    hide After, LinkOK, IsEvidence;
    assert LinksOf(v.hist, id) == [];
    NoLinksYet(v, id);
  }

  lemma NoLinksYet(v: World, id: string)
    requires id in v.env.store.sigs && LinksOf(v.hist, id) == []
    requires exists input :: v.env.store.sigs[id] == SignatureOf(id, input)
                             && !input.validated && input.validationID == "" && input.level == ""
    ensures LinkOK(v, id)
  {
  }

  lemma AnswerableStores(e: Env, op: Op, a: Answering)
    requires !op.Done? && Answerable(e, Request(op), a) && Recording(op) && Effective(a)
    ensures FreshId(e.store, a.newID)
  {
  }

  lemma LinksKept(w: World, op: Op, a: Answering, v: World)
    requires LinksOK(w) && !op.Done? && OpOK(w, op) && After(w, op, a, v) && WorldGrows(w, v)
    ensures LinksOK(v)
  {
    hide LinkOK, SameLinks, Grows, After, OpOK, Links, Recording;
    forall id | id in v.env.store.sigs ensures LinkOK(v, id) {
      LinkKept(w, op, a, v, id);
    }
    SigsStay(w.env, v.env);
    LinkKeys(w, op, a, v);
  }

  lemma LinkKept(w: World, op: Op, a: Answering, v: World, id: string)
    requires LinksOK(w) && !op.Done? && OpOK(w, op) && After(w, op, a, v) && WorldGrows(w, v) && id in v.env.store.sigs
    ensures LinkOK(v, id)
  {
    hide LinkOK, SameLinks, Grows, WorldGrows, After, OpOK, Answerable, Request, Effective, Recording, FreshId;
    if Recording(op) && Effective(a) {
      AfterIsAnswerable(w, op, a, v);
      AnswerableStores(w.env, op, a);
    }
    if id !in w.env.store.sigs {
      InsertLinks(w, op, a, v, id);
    } else if Links(op) && Effective(a) && id == op.v.sigID {
      LinkLinks(w, op, a, v);
    } else {
      OthersLeaveLinks(w, op, a, v, id);
      LinkStays(w, v, id);
    }
  }

  lemma AfterIsAnswerable(w: World, op: Op, a: Answering, v: World)
    requires !op.Done? && After(w, op, a, v)
    ensures Answerable(w.env, Request(op), a)
  {
  }

  lemma LinkKeys(w: World, op: Op, a: Answering, v: World)
    requires OpOK(w, op) && After(w, op, a, v)
    ensures forall id :: id in v.hist.links ==> id in w.hist.links || id in w.env.store.sigs
  {
    SigsAfter(w, op, a, v);
    hide After;
  }

  lemma SigsStay(e: Env, f: Env)
    requires Grows(e, f)
    ensures forall id :: id in e.store.sigs ==> id in f.store.sigs
  {
  }
}
