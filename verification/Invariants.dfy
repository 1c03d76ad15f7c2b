/** What holds in every reachable state, whatever is interleaved, lost or dies. The facts an operation relies on
    only grow (Grows), so one operation's step cannot spoil another's; every call keeps the environment well-formed
    because of what its operation knows (CallOK); and what an operation knows after a reply follows from what it
    knew before. */
module Invariants {
  import opened Protocol
  import opened Binding
  import opened StoreSpec
  import opened Choreography
  import opened Solo
  import opened Worlds

  // ---- rows keep their identity ----

  predicate SameIdentity(a: Job, b: Job) {
    b == a.(state := b.state, updatedAt := b.updatedAt)
  }

  predicate SameRecord(a: Signature, b: Signature) {
    b == a.(level := b.level, validated := b.validated, validationID := b.validationID)
  }

  /** The record says of the signing exactly what the job says. */
  predicate Truthful(s: Signature, j: Job) {
    && s.jobID == j.jobID && s.envelopeID == j.envelopeID && s.slotID == j.slotID
    && s.flowUsed == j.flow && s.sigFormat == j.sigFormat
    && s.loginMethod == j.loginMethod && s.loA == j.loA
  }

  predicate Supported(f: Format) {
    f == XAdES || f == PAdES
  }

  // ---- the environment ----

  predicate JobOK(env: Env, id: string)
    requires id in env.store.jobs
  {
    var j := env.store.jobs[id];
    && j.jobID == id && Supported(j.sigFormat) && Permits(j.loginMethod, j.flow)
    && id in env.prepared && env.prepared[id].sigFormat == j.sigFormat
  }

  predicate PreparedOK(env: Env, id: string)
    requires id in env.prepared
  {
    var p := env.prepared[id];
    && (p.sigFormat == PAdES <==> p.file.Some?)
    && (p.file.Some? ==> HandedOut(env, p.docID, p.file.value))
  }

  /** The bytes are what the document held at some time, and it has not been signed on under that id since: a PDF's id
      never names a later signed version, only an archived form. */
  predicate HandedOut(env: Env, docID: string, bytes: Bytes) {
    && bytes.ChainBytes? && bytes.root in env.chains && bytes.version < |env.chains[bytes.root].content|
    && docID in env.docs && !env.docs[docID].container && env.docs[docID].root == bytes.root
    && NoSigning(env.chains[bytes.root].commits, bytes.version, env.docs[docID].version)
  }

  /** Job j's PDF extends a version of the chain. */
  predicate BasedOn(env: Env, j: string, root: string) {
    && j in env.prepared && env.prepared[j].file.Some?
    && env.prepared[j].file.value.ChainBytes? && env.prepared[j].file.value.root == root
  }

  /** When the provider echoes, a signed PDF sits directly on the version its signer was given, and no version loses a
      signature. */
  predicate CommitOK(env: Env, root: string, v: nat)
    requires root in env.chains && v < |env.chains[root].commits|
    requires |env.chains[root].content| == |env.chains[root].commits| + 1
  {
    var chain := env.chains[root];
    match chain.commits[v]
    case RefreshCommit => chain.content[v + 1] == chain.content[v]
    case MergeCommit(j) => chain.content[v + 1] == chain.content[v] + {j}
    case PdfCommit(j) =>
      && j in env.prepared && env.prepared[j].file.Some?
      && (env.echoes ==>
            && chain.content[v + 1] == chain.content[v] + {j}
            && BasedOn(env, j, root) && NoSigning(chain.commits, env.prepared[j].file.value.version, v))
  }

  predicate ChainOK(env: Env, root: string)
    requires root in env.chains
  {
    var chain := env.chains[root];
    && |chain.content| == |chain.commits| + 1
    && forall v: nat :: v < |chain.commits| ==> CommitOK(env, root, v)
  }

  predicate DocOK(env: Env, id: string)
    requires id in env.docs
  {
    env.docs[id].root in env.chains && env.docs[id].version <= |env.chains[env.docs[id].root].commits|
  }

  /** The signatures on a chain's current document. */
  function Carried(env: Env, root: string): set<string> {
    if root in env.chains && |env.chains[root].content| > 0 then Last(env.chains[root].content) else {}
  }

  /** The commit that takes a job's artifact onto a chain. */
  function CommitOf(sigFormat: Format, j: string): Commit {
    if sigFormat == PAdES then PdfCommit(j) else MergeCommit(j)
  }

  predicate OnChain(env: Env, commit: Commit, root: string) {
    root in env.chains && commit in env.chains[root].commits
  }

  /** The job's signed PDF was accepted on some chain. */
  predicate PdfAccepted(env: Env, j: string) {
    exists root :: root in env.chains && OnChain(env, PdfCommit(j), root)
  }

  /** The job's own artifact was accepted onto the chain of the stored document `ref`; and when the provider echoes, its
      signature is on it now. */
  predicate Landed(env: Env, job: Job, ref: string) {
    && ref in env.docs
    && OnChain(env, CommitOf(job.sigFormat, job.jobID), env.docs[ref].root)
    && (env.echoes ==> job.jobID in Carried(env, env.docs[ref].root))
  }

  predicate SignatureOK(env: Env, id: string)
    requires id in env.store.sigs
  {
    var s := env.store.sigs[id];
    && s.id == id && s.jobID in env.store.jobs
    && Truthful(s, env.store.jobs[s.jobID])
    && Landed(env, env.store.jobs[s.jobID], s.signedDocumentRef)
  }

  predicate DocsOK(env: Env) {
    && (forall id :: id in env.prepared ==> PreparedOK(env, id))
    && (forall id :: id in env.docs ==> DocOK(env, id))
    && (forall root :: root in env.chains ==> ChainOK(env, root))
  }

  predicate RowsOK(env: Env) {
    && (forall id :: id in env.store.jobs ==> JobOK(env, id))
    && (forall id :: id in env.store.sigs ==> SignatureOK(env, id))
  }

  predicate EnvOK(env: Env) {
    DocsOK(env) && RowsOK(env)
  }

  // ---- what only grows ----

  predicate ChainGrows(a: Chain, b: Chain) {
    a.commits <= b.commits && a.content <= b.content
  }

  /** An id stays with its chain; a PDF's id moves only along with archiving. */
  predicate DocMoves(f: Env, a: DocAt, b: DocAt) {
    && b.root == a.root && b.container == a.container
    && (!a.container ==> a.root in f.chains && NoSigning(f.chains[a.root].commits, a.version, b.version))
  }

  predicate Grows(e: Env, f: Env) {
    && e.now <= f.now && e.echoes == f.echoes
    && (forall id :: id in e.store.jobs ==> id in f.store.jobs && SameIdentity(e.store.jobs[id], f.store.jobs[id]))
    && (forall id :: id in e.store.sigs ==> id in f.store.sigs && SameRecord(e.store.sigs[id], f.store.sigs[id]))
    && (forall id :: id in e.store.reports ==> id in f.store.reports && f.store.reports[id] == e.store.reports[id])
    && (forall id :: id in e.prepared ==> id in f.prepared && f.prepared[id] == e.prepared[id])
    && (forall id :: id in e.docs ==> id in f.docs && DocMoves(f, e.docs[id], f.docs[id]))
    && (forall root :: root in e.chains ==> root in f.chains && ChainGrows(e.chains[root], f.chains[root]))
  }

  lemma NoSigningTrans(a: seq<Commit>, b: seq<Commit>, from: int, mid: int, to: int)
    requires a <= b && NoSigning(a, from, mid) && NoSigning(b, mid, to)
    ensures NoSigning(b, from, to)
  {
    forall i | from <= i < to ensures b[i].RefreshCommit? {
      if i < mid {
        assert b[i] == a[i];
      }
    }
  }

  lemma GrowsTrans(e: Env, f: Env, g: Env)
    requires Grows(e, f) && Grows(f, g)
    ensures Grows(e, g)
  {
    forall root | root in e.chains ensures root in g.chains && ChainGrows(e.chains[root], g.chains[root]) {
      assert ChainGrows(e.chains[root], f.chains[root]) && ChainGrows(f.chains[root], g.chains[root]);
    }
    forall id | id in e.docs ensures id in g.docs && DocMoves(g, e.docs[id], g.docs[id]) {
      DocMovesOn(e, f, g, id);
    }
    hide DocMoves, ChainGrows;
  }

  lemma DocMovesOn(e: Env, f: Env, g: Env, id: string)
    requires Grows(e, f) && Grows(f, g) && id in e.docs
    ensures id in g.docs && DocMoves(g, e.docs[id], g.docs[id])
  {
    assert DocMoves(f, e.docs[id], f.docs[id]) && DocMoves(g, f.docs[id], g.docs[id]);
    if !e.docs[id].container {
      var root := e.docs[id].root;
      assert ChainGrows(f.chains[root], g.chains[root]);
      hide Grows, NoSigning;
      NoSigningTrans(f.chains[root].commits, g.chains[root].commits,
                     e.docs[id].version, f.docs[id].version, g.docs[id].version);
    }
  }

  lemma HandedOutStays(e: Env, f: Env, docID: string, bytes: Bytes)
    requires Grows(e, f) && HandedOut(e, docID, bytes)
    ensures HandedOut(f, docID, bytes)
  {
    assert ChainGrows(e.chains[bytes.root], f.chains[bytes.root]);
    assert DocMoves(f, e.docs[docID], f.docs[docID]);
    NoSigningTrans(e.chains[bytes.root].commits, f.chains[bytes.root].commits,
                   bytes.version, e.docs[docID].version, f.docs[docID].version);
  }

  /** When the provider echoes, later versions carry everything earlier ones did. */
  lemma {:induction false} ContentGrows(env: Env, root: string, i: nat, k: nat)
    requires env.echoes && root in env.chains && ChainOK(env, root)
    requires i <= k < |env.chains[root].content|
    ensures env.chains[root].content[i] <= env.chains[root].content[k]
    decreases k
  {
    if i < k {
      assert CommitOK(env, root, k - 1);
      ContentGrows(env, root, i, k - 1);
    }
  }

  /** Archiving changes no signature. */
  lemma {:induction false} RefreshKeepsContent(env: Env, root: string, i: nat, k: nat)
    requires root in env.chains && ChainOK(env, root)
    requires i <= k < |env.chains[root].content|
    requires NoSigning(env.chains[root].commits, i, k)
    ensures env.chains[root].content[i] == env.chains[root].content[k]
    decreases k
  {
    if i < k {
      assert CommitOK(env, root, k - 1);
      assert env.chains[root].commits[k - 1].RefreshCommit?;
      RefreshKeepsContent(env, root, i, k - 1);
    }
  }

  lemma CarriedGrows(e: Env, f: Env, root: string)
    requires f.echoes && Grows(e, f) && root in e.chains
    requires ChainOK(e, root) && ChainOK(f, root)
    ensures Carried(e, root) <= Carried(f, root)
  {
    assert ChainGrows(e.chains[root], f.chains[root]);
    ContentGrows(f, root, |e.chains[root].commits|, |f.chains[root].commits|);
  }

  lemma LandedStays(e: Env, f: Env, job: Job, ref: string)
    requires DocsOK(e) && DocsOK(f) && Grows(e, f) && Landed(e, job, ref)
    ensures Landed(f, job, ref)
  {
    var root := e.docs[ref].root;
    assert DocMoves(f, e.docs[ref], f.docs[ref]);
    assert ChainGrows(e.chains[root], f.chains[root]);
    assert ChainOK(e, root);
    if f.echoes {
      CarriedGrows(e, f, root);
    }
  }

  // ---- what an operation knows ----

  predicate Known(env: Env, job: Job) {
    job.jobID in env.store.jobs && SameIdentity(job, env.store.jobs[job.jobID])
  }

  /** The provider's artifact for a PAdES job. */
  predicate IsPdfOf(env: Env, job: Job, signed: Bytes) {
    && job.sigFormat == PAdES
    && job.jobID in env.prepared && env.prepared[job.jobID].file.Some?
    && signed == SignedPdf(job.jobID, env.prepared[job.jobID].file.value)
  }

  predicate IsRecordOf(env: Env, job: Job, ref: string, sigID: string) {
    && sigID in env.store.sigs
    && SameRecord(SignatureOf(sigID, SignatureInputOf(job, ref)), env.store.sigs[sigID])
  }

  /** The document is there, and if it is to be signed as a PDF it is not a container. */
  predicate Signable(env: Env, input: BeginInput, docID: string, meta: Metadata) {
    docID in env.docs && (FormatOf(input, meta) == PAdES ==> !env.docs[docID].container)
  }

  predicate BeginOK(env: Env, input: BeginInput, b: Beginning) {
    && Permits(input.loginMethod, input.flow) && Supported(input.sigFormat)
    && match b
       case BAcquire(docID, meta) => TakesLock(input.envelopeID, FormatOf(input, meta))
           && Signable(env, input, docID, meta)
       case BContent(docID, meta) => FormatOf(input, meta) == PAdES && Signable(env, input, docID, meta)
       case BPrepareFile(docID, meta, file) => FormatOf(input, meta) == PAdES && HandedOut(env, docID, file)
       case BObjects(_, meta) => FormatOf(input, meta) == XAdES
       case BPrepare(_, meta, _) => FormatOf(input, meta) == XAdES
       case BSave(meta, prep) =>
         prep.jobID in env.prepared && env.prepared[prep.jobID].sigFormat == FormatOf(input, meta)
       case _ => true
  }

  predicate ReconcileOK(env: Env, jobID: string, r: Polling) {
    match r
    case RGet(_, _, _) => true
    case RStatus(job, _, _) => job.jobID == jobID && Known(env, job)
    case RNote(job, _, st) =>
      job.jobID == jobID && Known(env, job) && jobID in env.prepared && Echoed(env, jobID, st.documents)
    case RKeep(job, _) => job.jobID == jobID && Known(env, job) && TakesLock(job.envelopeID, job.sigFormat)
  }

  /** A pass works on the document its job was prepared for, if the provider echoes. */
  predicate RightDoc(env: Env, job: Job, docID: string) {
    env.echoes ==> job.jobID in env.prepared && docID == env.prepared[job.jobID].docID
  }

  predicate FinalizeOK(w: World, job: Job, f: Finalizing) {
    && Known(w.env, job)
    && match f
       case FDownload(docID) => RightDoc(w.env, job, docID)
       case FMeta(docID, signed) => IsPdfOf(w.env, job, signed) && RightDoc(w.env, job, docID)
       case FStore(docID, signed, _) => IsPdfOf(w.env, job, signed) && RightDoc(w.env, job, docID)
       case FComplete(docID, fileless, attempt) =>
         && job.sigFormat == XAdES && fileless == Fileless(job.jobID) && attempt <= MAX_CO_SIGN_RETRIES
         && RightDoc(w.env, job, docID)
       case FInsert(ref) => Landed(w.env, job, ref)
       case FMark(ref, sigID) => IsRecordOf(w.env, job, ref, sigID)
       case FRelease(ref, sigID) =>
         IsRecordOf(w.env, job, ref, sigID) && job.jobID in w.hist.marks && TakesLock(job.envelopeID, job.sigFormat)
       case FNotify(ref, sigID, attempt) =>
         && IsRecordOf(w.env, job, ref, sigID) && job.jobID in w.hist.marks
         && w.wired && 1 <= attempt <= NOTIFY_ATTEMPTS
  }

  predicate ValidationOK(w: World, v: Validation, at: Validating) {
    && v.sigID in w.env.store.sigs
    && w.env.store.sigs[v.sigID].signedDocumentRef == v.containerID
    && w.env.store.sigs[v.sigID].sigFormat == v.sigFormat
    && (at.VLink? ==> IsEvidence(w, v.sigID, at.reportID) && w.hist.evidence[at.reportID] == at.answer)
  }

  /** The stored report is the normalized form of an answer about this very signature. */
  predicate IsEvidence(w: World, sigID: string, reportID: string) {
    && reportID != "" && reportID in w.hist.evidence && reportID in w.env.store.reports
    && w.env.store.reports[reportID] == ReportOf(sigID, w.hist.evidence[reportID])
  }

  predicate OpOK(w: World, op: Op) {
    match op
    case InBegin(input, b) => BeginOK(w.env, input, b)
    case InReconcile(jobID, r) => ReconcileOK(w.env, jobID, r)
    case InFinalize(job, _, f) => FinalizeOK(w, job, f)
    case InValidation(v, at) => ValidationOK(w, v, at)
    case InValidate(sigID, _, _, d) =>
      d.DJob? ==> sigID in w.env.store.sigs && SameRecord(d.sig, w.env.store.sigs[sigID])
    case InAbandon(a) => a.ARelease? ==> Known(w.env, a.job) && TakesLock(a.job.envelopeID, a.job.sigFormat)
    case InSubmit(_, _) => true
    case Done(_) => false
  }

  // ---- what follows for the call it makes ----

  /** What is true of every store call the moment it is made. */
  predicate StoreCallOK(w: World, s: StoreCall) {
    match s
    case SaveJob(input) =>
      && Permits(input.loginMethod, input.flow) && Supported(input.sigFormat)
      && input.jobID in w.env.prepared && w.env.prepared[input.jobID].sigFormat == input.sigFormat
    case InsertSignature(input) =>
      && input.jobID in w.env.store.jobs
      && Truthful(SignatureOf("", input), w.env.store.jobs[input.jobID])
      && Landed(w.env, w.env.store.jobs[input.jobID], input.signedDocumentRef)
      && !input.validated && input.validationID == "" && input.level == ""
    case RecordValidation(sigID, reportID, pass, level) =>
      && sigID in w.env.store.sigs && IsEvidence(w, sigID, reportID)
      && w.hist.evidence[reportID].pass == pass && w.hist.evidence[reportID].level == level
    case _ => true
  }

  /** What is true of every collaborator call the moment it is made. */
  predicate PortCallOK(w: World, p: PortCall) {
    match p
    case PrepareWithFile(_, doc, file, _) => doc.signatureFormat == PAdES && HandedOut(w.env, doc.documentID, file)
    case Prepare(_, doc, _) => doc.signatureFormat == XAdES
    case StoreSignedDocument(parentID, signed, mime, _, _) =>
      && signed.SignedPdf? && mime == ApplicationPdf && signed.jobID in w.env.store.jobs
      && IsPdfOf(w.env, w.env.store.jobs[signed.jobID], signed)
      && RightDoc(w.env, w.env.store.jobs[signed.jobID], parentID)
    case Complete(docID, fileless, _) =>
      && fileless.Fileless? && fileless.jobID in w.env.store.jobs
      && w.env.store.jobs[fileless.jobID].sigFormat == XAdES
      && RightDoc(w.env, w.env.store.jobs[fileless.jobID], docID)
    case Download(jobID, _, sigFormat) =>
      jobID in w.env.store.jobs && w.env.store.jobs[jobID].sigFormat == sigFormat
    case MarkSlotSigned(envelopeID, slotID, sigID, ref, jobID) =>
      && w.wired && sigID in w.env.store.sigs && jobID in w.hist.marks
      && var s := w.env.store.sigs[sigID];
      && s.envelopeID == envelopeID && s.slotID == slotID && s.jobID == jobID && s.signedDocumentRef == ref
    case _ => true
  }

  predicate CallOK(w: World, call: Call) {
    match call
    case ToStore(s) => StoreCallOK(w, s)
    case ToPort(p) => PortCallOK(w, p)
  }

  lemma BeginMakesGoodCalls(w: World, input: BeginInput, b: Beginning)
    requires BeginOK(w.env, input, b)
    ensures CallOK(w, BeginCall(input, b))
  {
  }

  lemma FinalizeMakesGoodCalls(w: World, job: Job, token: string, f: Finalizing)
    requires EnvOK(w.env) && FinalizeOK(w, job, f)
    ensures CallOK(w, FinalizeCall(job, token, f))
  {
    assert JobOK(w.env, job.jobID);
  }

  lemma OtherCallsAreGood(w: World, op: Op)
    requires OpOK(w, op) && !op.InBegin? && !op.InFinalize?
    ensures CallOK(w, Request(op))
  {
  }

  lemma OpMakesGoodCalls(w: World, op: Op)
    requires EnvOK(w.env) && OpOK(w, op)
    ensures CallOK(w, Request(op))
  {
    hide CallOK, BeginOK, FinalizeOK, ValidationOK, ReconcileOK, EnvOK;
    hide BeginCall, ReconcileCall, FinalizeCall, ValidationCall, ValidateCall, AbandonCall, SubmitCall;
    match op
    case InFinalize(job, token, f) => FinalizeMakesGoodCalls(w, job, token, f);
    case InBegin(input, b) => BeginMakesGoodCalls(w, input, b);
    case _ => OtherCallsAreGood(w, op);
  }

  // ---- a call keeps the environment well-formed, and only grows it ----

  lemma SameDocs(e: Env, f: Env)
    requires DocsOK(e) && f.chains == e.chains && f.docs == e.docs && f.prepared == e.prepared && f.echoes == e.echoes
    ensures DocsOK(f)
  {
    forall root | root in f.chains ensures ChainOK(f, root) {
      assert ChainOK(e, root);
      CommitsStay(e, f, root);
    }
    forall id | id in f.docs ensures DocOK(f, id) {
      assert DocOK(e, id);
    }
    forall id | id in f.prepared ensures PreparedOK(f, id) {
      assert PreparedOK(e, id);
    }
  }

  /** Commits that were right stay right. */
  lemma CommitsStay(e: Env, f: Env, root: string)
    requires root in e.chains && ChainOK(e, root) && f.echoes == e.echoes
    requires forall id :: id in e.prepared ==> id in f.prepared && f.prepared[id] == e.prepared[id]
    requires root in f.chains && ChainGrows(e.chains[root], f.chains[root])
    requires |f.chains[root].content| == |f.chains[root].commits| + 1
    ensures forall v: nat :: v < |e.chains[root].commits| ==> CommitOK(f, root, v)
  {
    var old', new' := e.chains[root], f.chains[root];
    forall v: nat | v < |old'.commits| ensures CommitOK(f, root, v) {
      assert CommitOK(e, root, v);
      assert new'.commits[v] == old'.commits[v];
      assert new'.content[v] == old'.content[v] && new'.content[v + 1] == old'.content[v + 1];
      if new'.commits[v].PdfCommit? && e.echoes {
        var j := old'.commits[v].jobID;
        NoSigningTrans(old'.commits, new'.commits, e.prepared[j].file.value.version, v, v);
      }
    }
  }

  /** Rows that were right stay right while documents and identities only grow. */
  lemma RowsStay(e: Env, f: Env)
    requires EnvOK(e) && DocsOK(f) && Grows(e, f)
    ensures forall id :: id in e.store.jobs ==> JobOK(f, id)
    ensures forall id :: id in e.store.sigs ==> SignatureOK(f, id)
  {
    forall id | id in e.store.jobs ensures JobOK(f, id) {
      assert JobOK(e, id);
    }
    forall id | id in e.store.sigs ensures SignatureOK(f, id) {
      assert SignatureOK(e, id);
      var s := e.store.sigs[id];
      LandedStays(e, f, e.store.jobs[s.jobID], s.signedDocumentRef);
    }
  }

  lemma StoreCallGrows(e: Env, s: StoreCall, newID: string)
    requires DocsOK(e) && FreshId(e.store, newID)
    ensures Grows(e, e.(store := Apply(e.store, e.now, newID, s).0))
  {
    var f := e.(store := Apply(e.store, e.now, newID, s).0);
    hide Apply;
    StoreOnlyGrows(e.store, e.now, s, newID);
    DocsMove(e, f);
    hide DocsOK, DocMoves, SameIdentity, SameRecord;
  }

  lemma DocsMove(e: Env, f: Env)
    requires DocsOK(e) && f.docs == e.docs && f.chains == e.chains
    ensures forall id :: id in e.docs ==> DocMoves(f, e.docs[id], f.docs[id])
  {
    forall id | id in e.docs ensures DocMoves(f, e.docs[id], f.docs[id]) {
      assert DocOK(e, id);
    }
  }

  lemma StoreOnlyGrows(s: StoreState, now: int, call: StoreCall, newID: string)
    requires FreshId(s, newID)
    ensures var t := Apply(s, now, newID, call).0;
            && (forall id :: id in s.jobs ==> id in t.jobs && SameIdentity(s.jobs[id], t.jobs[id]))
            && (forall id :: id in s.sigs ==> id in t.sigs && SameRecord(s.sigs[id], t.sigs[id]))
            && (forall id :: id in s.reports ==> id in t.reports && t.reports[id] == s.reports[id])
  {
  }

  /** Only SaveJob and InsertSignature make rows that were not there. */
  lemma StoreCallRows(e: Env, s: StoreCall, newID: string)
    ensures var f := Apply(e.store, e.now, newID, s).0;
            && f.jobs.Keys <= e.store.jobs.Keys + (if s.SaveJob? then {s.save.jobID} else {})
            && f.sigs.Keys <= e.store.sigs.Keys + (if s.InsertSignature? then {newID} else {})
  {
  }

  lemma StoreCallKeeps(w: World, s: StoreCall, newID: string)
    requires EnvOK(w.env) && StoreCallOK(w, s) && FreshId(w.env.store, newID)
    ensures var f := w.env.(store := Apply(w.env.store, w.env.now, newID, s).0);
            EnvOK(f) && Grows(w.env, f)
  {
    hide Grows, DocsOK;
    var e := w.env;
    var f := e.(store := Apply(e.store, e.now, newID, s).0);
    SameDocs(e, f);
    StoreCallGrows(e, s, newID);
    StoreCallRows(e, s, newID);
    RowsStay(e, f);
    if s.SaveJob? {
      assert s.save.jobID !in e.store.jobs ==> JobOK(f, s.save.jobID);
    } else if s.InsertSignature? {
      LandedStays(e, f, e.store.jobs[s.input.jobID], s.input.signedDocumentRef);
      assert SignatureOK(f, newID);
    }
  }
}
