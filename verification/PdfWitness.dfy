/** Runs of PAdES signings on an envelope, step by step from the empty system: what Guarantees warns of does happen. */
module PdfWitnesses {
  import opened Protocol
  import opened Binding
  import opened StoreSpec
  import opened Choreography
  import opened Solo
  import opened Worlds
  import opened Invariants
  import opened Steps
  import opened Guarantees
  import opened Witnesses

  const PDF := Metadata(Pdf, "", ApplicationPdf, "")

  function Input(envelopeID: string, slot: string): BeginInput {
    BeginInput(envelopeID, slot, WebEidFlow, PAdES, "doc", "ann", "", WebEid, "",
               PrepareOptions("", "", "", "", "", ""))
  }

  function Prep(jobID: string): PrepareResult {
    PrepareResult(jobID, PENDING, "", "", [])
  }

  /** The job a Begin of this input saves. */
  function JobFor(envelopeID: string, slot: string, jobID: string, state: State, at: int): Job {
    Job(jobID, envelopeID, slot, WebEidFlow, PAdES, state, "ann", WebEid, "", 0, at)
  }

  /** The provider is done with the document it names. */
  function Ready(docID: string): StatusResult {
    StatusResult(READY, [DocRef(docID, "", "", "url")], "", "", 0)
  }

  /** Time stands still in these runs, and records are few. */
  predicate Calm(v: World) {
    v.env.now == 0 && FreshId(v.env.store, "n")
  }

  // ---- Begin ----

  lemma BeginResumesSo(input: BeginInput, slot: string)
    requires input == Input("e", slot)
    ensures BeginOp(true, input) == InBegin(input, BEnvelope)
    ensures Resume(true, InBegin(input, BEnvelope), EnvelopeView(["doc"])) == InBegin(input, BHead("doc"))
    ensures Resume(true, InBegin(input, BHead("doc")), Head("")) == InBegin(input, BMeta("doc"))
    ensures Resume(true, InBegin(input, BMeta("doc")), Meta(PDF)) == InBegin(input, BAcquire("doc", PDF))
  {
  }

  /** Begin has resolved the chain's head, the uploaded document, and is about to acquire. */
  lemma Resolved(w: World, v: World, id: nat, slot: string) returns (u: World)
    requires Leads(w, v, false) && v.wired && id !in v.ops && "doc" in v.env.docs && !v.env.docs["doc"].container
    ensures Leads(w, u, false) && u.wired && u.env == v.env
    ensures u.ops == v.ops[id := InBegin(Input("e", slot), BAcquire("doc", PDF))]
  {
    var input := Input("e", slot);
    BeginResumesSo(input, slot);
    hide Leads, Resume, BeginOp;
    u := StartStep(w, v, id, InBegin(input, BEnvelope), false);
    u := PortStep(w, u, id, EnvelopeView(["doc"]), false);
    u := PortStep(w, u, id, Head(""), false);
    u := PortStep(w, u, id, Meta(PDF), false);
  }

  /** It gets the lock. */
  lemma Took(w: World, v: World, id: nat, slot: string) returns (u: World)
    requires Leads(w, v, false) && v.wired && Calm(v) && id in v.ops
    requires v.ops[id] == InBegin(Input("e", slot), BAcquire("doc", PDF))
    requires Acquirable(v.env.store.locks, "e", slot, 0)
    ensures Leads(w, u, false) && u.wired
    ensures u.env == v.env.(store := v.env.store.(locks := v.env.store.locks["e" := Lease(slot, 300 * SECOND)]))
    ensures u.ops == v.ops[id := InBegin(Input("e", slot), BContent("doc", PDF))]
  {
    hide Leads;
    u := StoreStep(w, v, id, "n", false);
  }

  /** It fetches the bytes, and the provider takes the job. */
  lemma Handed(w: World, v: World, id: nat, input: BeginInput, jobID: string) returns (u: World)
    requires Leads(w, v, false) && id in v.ops && v.ops[id] == InBegin(input, BContent("doc", PDF))
    requires "doc" in v.env.docs && jobID !in v.env.prepared
    ensures Leads(w, u, false) && u.wired == v.wired
    ensures var bytes := ChainBytes(v.env.docs["doc"].root, v.env.docs["doc"].version);
            u.env == v.env.(prepared := v.env.prepared[jobID := Preparation(PAdES, "doc", Some(bytes))])
    ensures u.ops == v.ops[id := InBegin(input, BSave(PDF, Prep(jobID)))]
  {
    var bytes := ChainBytes(v.env.docs["doc"].root, v.env.docs["doc"].version);
    u := Read(w, v, id, input, bytes);
    hide Leads;
    u := PortStep(w, u, id, Prepared(Prep(jobID)), false);
  }

  lemma Read(w: World, v: World, id: nat, input: BeginInput, bytes: Bytes) returns (u: World)
    requires Leads(w, v, false) && id in v.ops && v.ops[id] == InBegin(input, BContent("doc", PDF))
    requires "doc" in v.env.docs && bytes == ChainBytes(v.env.docs["doc"].root, v.env.docs["doc"].version)
    ensures Leads(w, u, false) && u.wired == v.wired && u.env == v.env
    ensures u.ops == v.ops[id := InBegin(input, BPrepareFile("doc", PDF, bytes))]
  {
    hide Leads;
    u := PortStep(w, v, id, Blob(bytes), false);
  }

  /** And the job is saved. */
  lemma Saved(w: World, v: World, id: nat, envelopeID: string, slot: string, jobID: string) returns (u: World)
    requires Leads(w, v, false) && Calm(v) && id in v.ops && jobID !in v.env.store.jobs
    requires v.ops[id] == InBegin(Input(envelopeID, slot), BSave(PDF, Prep(jobID)))
    ensures Leads(w, u, false) && u.wired == v.wired && u.ops == v.ops - {id}
    ensures u.env == v.env.(store := v.env.store.(jobs :=
              v.env.store.jobs[jobID := JobFor(envelopeID, slot, jobID, PENDING, 0)]))
  {
    hide Leads;
    u := StoreStep(w, v, id, "n", false);
  }

  // ---- a poll ----

  lemma PollResumesSo(wired: bool, job: Job, docID: string, signed: Bytes)
    requires job.sigFormat == PAdES && docID != ""
    ensures Resume(wired, InReconcile(job.jobID, RNote(job, "", Ready(docID))), Ack) ==
            InFinalize(job, "", FDownload(docID))
    ensures Resume(wired, InFinalize(job, "", FDownload(docID)), Blob(signed)) ==
            InFinalize(job, "", FMeta(docID, signed))
    ensures Resume(wired, InFinalize(job, "", FMeta(docID, signed)), Meta(PDF)) ==
            InFinalize(job, "", FStore(docID, signed, ""))
  {
    assert FirstReady(Ready(docID).documents) == Some(docID);
  }

  /** A poll that the provider answers READY, naming a document. */
  lemma Polled(w: World, v: World, id: nat, job: Job, docID: string) returns (u: World)
    requires Leads(w, v, false) && Calm(v) && id !in v.ops && docID != ""
    requires job.jobID in v.env.store.jobs && v.env.store.jobs[job.jobID] == job && job.state == PENDING
    requires job.jobID in v.env.prepared && (v.env.echoes ==> v.env.prepared[job.jobID].docID == docID)
    ensures Leads(w, u, false) && u.wired == v.wired && u.env == v.env
    ensures u.ops == v.ops[id := InReconcile(job.jobID, RNote(job, "", Ready(docID)))]
  {
    u := Looked(w, v, id, job);
    hide Leads;
    u := PortStep(w, u, id, Provider(Ready(docID)), false);
  }

  lemma Looked(w: World, v: World, id: nat, job: Job) returns (u: World)
    requires Leads(w, v, false) && Calm(v) && id !in v.ops
    requires job.jobID in v.env.store.jobs && v.env.store.jobs[job.jobID] == job && job.state == PENDING
    ensures Leads(w, u, false) && u.wired == v.wired && u.env == v.env
    ensures u.ops == v.ops[id := InReconcile(job.jobID, RStatus(job, 0, ""))]
  {
    hide Leads;
    u := StartStep(w, v, id, ReconcileOp(job.jobID, 0, "", ""), false);
    u := StoreStep(w, u, id, "n", false);
  }

  /** It notes that, and fetches the signed PDF. */
  lemma AtStore(w: World, v: World, id: nat, job: Job, docID: string, base: Bytes) returns (u: World)
    requires Leads(w, v, false) && Calm(v) && docID in v.env.docs && docID != "" && !v.env.docs[docID].container
    requires id in v.ops && v.ops[id] == InReconcile(job.jobID, RNote(job, "", Ready(docID))) && job.sigFormat == PAdES
    requires job.jobID in v.env.store.jobs
    requires job.jobID in v.env.prepared && v.env.prepared[job.jobID].file == Some(base)
    ensures Leads(w, u, false) && u.wired == v.wired
    ensures u.env == v.env.(store := v.env.store.(jobs :=
              v.env.store.jobs[job.jobID := v.env.store.jobs[job.jobID].(state := READY, updatedAt := 0)]))
    ensures u.ops == v.ops[id := InFinalize(job, "", FStore(docID, SignedPdf(job.jobID, base), ""))]
  {
    var signed := SignedPdf(job.jobID, base);
    PollResumesSo(v.wired, job, docID, signed);
    hide Leads, Resume;
    u := StoreStep(w, v, id, "n", false);
    u := Fetched(w, u, id, job, docID, base);
  }

  lemma Fetched(w: World, v: World, id: nat, job: Job, docID: string, base: Bytes) returns (u: World)
    requires Leads(w, v, false) && docID in v.env.docs && docID != "" && !v.env.docs[docID].container
    requires id in v.ops && v.ops[id] == InFinalize(job, "", FDownload(docID)) && job.sigFormat == PAdES
    requires job.jobID in v.env.prepared && v.env.prepared[job.jobID].file == Some(base)
    ensures Leads(w, u, false) && u.wired == v.wired && u.env == v.env
    ensures u.ops == v.ops[id := InFinalize(job, "", FStore(docID, SignedPdf(job.jobID, base), ""))]
  {
    var signed := SignedPdf(job.jobID, base);
    PollResumesSo(v.wired, job, docID, signed);
    hide Leads, Resume;
    u := PortStep(w, v, id, Blob(signed), false);
    u := PortStep(w, u, id, Meta(PDF), false);
  }

  /** The document service accepts it under a new id. */
  lemma Accepted(w: World, v: World, id: nat, job: Job, docID: string, base: Bytes, ref: string) returns (u: World)
    requires Leads(w, v, false) && IsCurrent(v.env, docID) && ref != "" && ref !in v.env.docs
    requires id in v.ops && v.ops[id] == InFinalize(job, "", FStore(docID, SignedPdf(job.jobID, base), ""))
    ensures Leads(w, u, false) && u.wired == v.wired
    ensures u.env == Committed(v.env, v.env.docs[docID].root, ref, PdfCommit(job.jobID),
                               SignaturesIn(v.env, SignedPdf(job.jobID, base)))
    ensures u.ops == v.ops[id := InFinalize(job, "", FInsert(ref))]
  {
    hide Leads, Committed, SignaturesIn;
    u := PortStep(w, v, id, NewId(ref), false);
  }

  /** The pass records, marks and releases. */
  lemma Finished(w: World, v: World, id: nat, job: Job, ref: string) returns (u: World)
    requires Leads(w, v, false) && v.wired && Calm(v) && FreshId(v.env.store, "s")
    requires id in v.ops && v.ops[id] == InFinalize(job, "", FInsert(ref))
    requires TakesLock(job.envelopeID, job.sigFormat) && job.jobID in v.env.store.jobs
    ensures Leads(w, u, false) && u.wired && Calm(u) && id in u.ops && u.ops.Keys == v.ops.Keys
    ensures forall k :: k in v.ops && k != id ==> u.ops[k] == v.ops[k]
    ensures u.env == v.env.(store := u.env.store)
    ensures u.env.store.locks == Release(v.env.store.locks, job.envelopeID, job.slotID)
    ensures u.env.store.jobs.Keys == v.env.store.jobs.Keys
  {
    u := Recorded(w, v, id, job, ref);
    u := Marked(w, u, id, job, ref);
    hide Leads;
    u := StoreStep(w, u, id, "n", false);
  }

  lemma Marked(w: World, v: World, id: nat, job: Job, ref: string) returns (u: World)
    requires Leads(w, v, false) && v.wired && Calm(v) && job.jobID in v.env.store.jobs
    requires id in v.ops && v.ops[id] == InFinalize(job, "", FMark(ref, "s"))
    requires TakesLock(job.envelopeID, job.sigFormat)
    ensures Leads(w, u, false) && u.wired && Calm(u) && u.ops == v.ops[id := InFinalize(job, "", FRelease(ref, "s"))]
    ensures u.env == v.env.(store := v.env.store.(jobs := u.env.store.jobs))
    ensures u.env.store.jobs.Keys == v.env.store.jobs.Keys
  {
    hide Leads;
    u := StoreStep(w, v, id, "n", false);
  }

  lemma Recorded(w: World, v: World, id: nat, job: Job, ref: string) returns (u: World)
    requires Leads(w, v, false) && v.wired && Calm(v) && FreshId(v.env.store, "s")
    requires id in v.ops && v.ops[id] == InFinalize(job, "", FInsert(ref))
    ensures Leads(w, u, false) && u.wired && Calm(u) && u.ops == v.ops[id := InFinalize(job, "", FMark(ref, "s"))]
    ensures u.env == v.env.(store := v.env.store.(sigs := u.env.store.sigs))
  {
    hide Leads;
    u := StoreStep(w, v, id, "s", false);
  }

  // ---- a signer who resolved the head too early ----

  const WIRED := Initial(true, true, 0)
  const BASE := ChainBytes("doc", 0)

  lemma LeadsReaches(v: World)
    requires Leads(WIRED, v, false)
    ensures Reached(v)
  {
  }

  /** Slot a has resolved the head; slot b has its signing begun, and holds the chain. */
  predicate BothBegun(v: World) {
    && v.wired && v.env == Env(
         StoreState(map["jobB" := JobFor("e", "b", "jobB", PENDING, 0)], map[], map[],
                    map["e" := Lease("b", 300 * SECOND)]),
         0, true,
         map["doc" := Chain([], [{}])], map["doc" := DocAt("doc", 0, false)],
         map["jobB" := Preparation(PAdES, "doc", Some(BASE))])
    && v.ops == map[1 := InBegin(Input("e", "a"), BAcquire("doc", PDF))]
  }

  lemma BeginBoth() returns (v: World)
    ensures Leads(WIRED, v, false) && BothBegun(v)
  {
    v := WithDoc(WIRED, false);
    hide Leads;
    v := Resolved(WIRED, v, 1, "a");
    v := Resolved(WIRED, v, 2, "b");
    v := Took(WIRED, v, 2, "b");
    v := Handed(WIRED, v, 2, Input("e", "b"), "jobB");
    v := Saved(WIRED, v, 2, "e", "b", "jobB");
  }

  /** Slot b's PDF is about to be stored. */
  lemma WinnerAtStore() returns (v: World)
    ensures Leads(WIRED, v, false) && v.wired
    ensures v.env == Env(
      StoreState(map["jobB" := JobFor("e", "b", "jobB", READY, 0)], map[], map[], map["e" := Lease("b", 300 * SECOND)]),
      0, true,
      map["doc" := Chain([], [{}])], map["doc" := DocAt("doc", 0, false)],
      map["jobB" := Preparation(PAdES, "doc", Some(BASE))])
    ensures v.ops == map[1 := InBegin(Input("e", "a"), BAcquire("doc", PDF)),
                         3 := InFinalize(JobFor("e", "b", "jobB", PENDING, 0), "",
                                         FStore("doc", SignedPdf("jobB", BASE), ""))]
  {
    v := BeginBoth();
    hide Leads;
    var job := JobFor("e", "b", "jobB", PENDING, 0);
    v := Polled(WIRED, v, 3, job, "doc");
    v := AtStore(WIRED, v, 3, job, "doc", BASE);
  }

  lemma FirstCommit(e: Env)
    requires e.chains == map["doc" := Chain([], [{}])] && e.docs == map["doc" := DocAt("doc", 0, false)]
    ensures IsCurrent(e, "doc")
    ensures Committed(e, "doc", "pdfB", PdfCommit("jobB"), SignaturesIn(e, SignedPdf("jobB", BASE))) ==
            e.(chains := map["doc" := Chain([PdfCommit("jobB")], [{}, {"jobB"}])],
               docs := map["doc" := DocAt("doc", 0, false), "pdfB" := DocAt("doc", 1, false)])
  {
    assert SignaturesIn(e, BASE) == {};
    assert SignaturesIn(e, SignedPdf("jobB", BASE)) == {"jobB"};
    assert [] + [PdfCommit("jobB")] == [PdfCommit("jobB")];
    assert [{}] + [{"jobB"}] == [{}, {"jobB"}];
  }

  /** The chain after slot b has signed and given it back; slot a is still where it was. */
  predicate Moved(v: World) {
    && v.wired && Calm(v) && v.env.echoes && v.env.store.locks == map[] && v.env.store.jobs.Keys == {"jobB"}
    && v.env.chains == map["doc" := Chain([PdfCommit("jobB")], [{}, {"jobB"}])]
    && v.env.docs == map["doc" := DocAt("doc", 0, false), "pdfB" := DocAt("doc", 1, false)]
    && v.env.prepared == map["jobB" := Preparation(PAdES, "doc", Some(BASE))]
    && v.ops.Keys == {1, 3} && v.ops[1] == InBegin(Input("e", "a"), BAcquire("doc", PDF))
  }

  lemma WinnerDone() returns (v: World)
    ensures Leads(WIRED, v, false) && Moved(v)
  {
    v := WinnerAtStore();
    hide Leads;
    var job := JobFor("e", "b", "jobB", PENDING, 0);
    FirstCommit(v.env);
    v := Accepted(WIRED, v, 3, job, "doc", BASE, "pdfB");
    v := Finished(WIRED, v, 3, job, "pdfB");
  }

  /** Slot a now gets the lease, and goes on with the version it resolved, which is no longer the chain's head. */
  lemma StaleBeginGetsTheLease() returns (v: World)
    ensures Reached(v) && 1 in v.ops && v.ops[1] == InBegin(Input("e", "a"), BContent("doc", PDF))
    ensures LockStatus(v.env.store.locks, "e", v.env.now) == (true, "a")
    ensures "doc" in v.env.docs && "doc" in v.env.chains
    ensures v.env.docs["doc"].root == "doc" && v.env.docs["doc"].version < |v.env.chains["doc"].commits|
  {
    v := WinnerDone();
    hide Leads, Reached;
    v := Took(WIRED, v, 1, "a");
    LeadsReaches(v);
  }

  /** And when its PDF is about to be stored, it is superseded: the CAS will refuse it. */
  lemma LoserAtStore() returns (v: World)
    ensures Reached(v) && v.env.echoes && Superseded(v.env, "jobA") && 4 in v.ops
    ensures v.ops[4].InFinalize? && v.ops[4].f == FStore("doc", SignedPdf("jobA", BASE), "")
        && v.ops[4].job.jobID == "jobA"
  {
    v := WinnerDone();
    hide Leads, Reached;
    var job := JobFor("e", "a", "jobA", PENDING, 0);
    v := Took(WIRED, v, 1, "a");
    v := Handed(WIRED, v, 1, Input("e", "a"), "jobA");
    v := Saved(WIRED, v, 1, "e", "a", "jobA");
    v := Polled(WIRED, v, 4, job, "doc");
    v := AtStore(WIRED, v, 4, job, "doc", BASE);
    LeadsReaches(v);
    assert v.env.chains["doc"].commits[0] == PdfCommit("jobB");
  }

  // ---- two attempts of one slot ----

  /** Slot a's first attempt is pending and holds the chain; its second fails to read the document. Slot b then gets the
      chain, at a time at which the first attempt's lease has not run out, and it has released nothing. */
  lemma SecondAttemptLosesTheHold() returns (v: World)
    ensures Reached(v) && v.env.now < 300 * SECOND
    ensures "job1" in v.env.store.jobs && v.env.store.jobs["job1"] == JobFor("e", "a", "job1", PENDING, 0)
    ensures LockStatus(v.env.store.locks, "e", v.env.now) == (true, "b")
    ensures 3 in v.ops && v.ops[3] == InBegin(Input("e", "b"), BContent("doc", PDF))
  {
    v := FirstAttempt();
    hide Leads, Reached;
    v := SecondAttempt(v);
    v := Resolved(WIRED, v, 3, "b");
    v := Took(WIRED, v, 3, "b");
    LeadsReaches(v);
  }

  predicate FirstBegun(v: World, locks: map<string, Lease>) {
    && v.wired && v.ops == map[]
    && v.env == Env(
         StoreState(map["job1" := JobFor("e", "a", "job1", PENDING, 0)], map[], map[], locks), 0, true,
         map["doc" := Chain([], [{}])], map["doc" := DocAt("doc", 0, false)],
         map["job1" := Preparation(PAdES, "doc", Some(BASE))])
  }

  lemma FirstAttempt() returns (v: World)
    ensures Leads(WIRED, v, false) && FirstBegun(v, map["e" := Lease("a", 300 * SECOND)])
  {
    v := WithDoc(WIRED, false);
    hide Leads;
    v := Resolved(WIRED, v, 1, "a");
    v := Took(WIRED, v, 1, "a");
    v := Handed(WIRED, v, 1, Input("e", "a"), "job1");
    v := Saved(WIRED, v, 1, "e", "a", "job1");
  }

  lemma SecondAttempt(v: World) returns (u: World)
    requires Leads(WIRED, v, false) && FirstBegun(v, map["e" := Lease("a", 300 * SECOND)])
    ensures Leads(WIRED, u, false) && FirstBegun(u, map[])
  {
    hide Leads;
    u := Resolved(WIRED, v, 2, "a");
    u := Took(WIRED, u, 2, "a");
    u := GaveUp(WIRED, u, 2, "a");
  }

  /** The bytes cannot be read, and the deferred release follows. */
  lemma GaveUp(w: World, v: World, id: nat, slot: string) returns (u: World)
    requires Leads(w, v, false) && v.wired && Calm(v) && id in v.ops
    requires v.ops[id] == InBegin(Input("e", slot), BContent("doc", PDF))
    ensures Leads(w, u, false) && u.wired && u.ops == v.ops - {id}
    ensures u.env == v.env.(store := v.env.store.(locks := Release(v.env.store.locks, "e", slot)))
  {
    hide Leads;
    u := PortStep(w, v, id, Fail(Broken("")), false);
    assert u.ops[id] == InBegin(Input("e", slot), BUndo(Wrapped(FetchBytes, Broken(""))));
    u := StoreStep(w, u, id, "n", false);
  }
}
