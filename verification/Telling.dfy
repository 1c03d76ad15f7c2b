/** The runs of an operation and its story are the same thing: whatever the replies, what the operation asks next and
    what it returns is what the story says. */
module Telling {
  import opened Protocol
  import opened Binding
  import opened Choreography
  import opened Solo
  import opened CallByCall
  import opened Stories

  // ---- runs ----

  /** `own` are the exchanges the operation makes from here to its end, and `out` is what it returns. */
  predicate Runs(wired: bool, op: Op, own: seq<Exchange>, out: Outcome)
    decreases |own|
  {
    if op.Done? then own == [] && out == op.outcome
    else |own| > 0 && own[0].call == Request(op) && Runs(wired, Resume(wired, op, own[0].reply), own[1..], out)
  }

  /** Whatever it is answered and whatever happens around it, what an operation does is one of its runs. */
  lemma {:induction false} DriveRuns(wired: bool, op: Op, s: Setting)
    ensures var (t, out) := Drive(wired, op, s);
            Extends(s, t) && Runs(wired, op, Since(s, t), out)
    decreases Rank(op)
  {
    hide Drive, Exchanged, Request, Resume, Rank;
    if op.Done? {
      DoneEnds(wired);
      assert op == Done(op.outcome);
    } else {
      DriveStep(wired, op, s);
      ExchangedTrace(s, Request(op));
      var (s', r) := Exchanged(s, Request(op));
      EveryReplyIsProgress(wired, op, r);
      DriveRuns(wired, Resume(wired, op, r), s');
      var t := Drive(wired, op, s).0;
      assert t.trace[|s.trace|] == t.trace[..|s'.trace|][|s.trace|];
      assert t.trace[|s.trace|..][1..] == t.trace[|s'.trace|..];
    }
  }

  lemma RunsDone(wired: bool)
    ensures forall x, own, out {:trigger Runs(wired, Done(x), own, out)} ::
              Runs(wired, Done(x), own, out) <==> own == [] && out == x
  {
  }

  // ---- every run tells its story, and nothing else does ----

  lemma RunsStep(wired: bool, op: Op, own: seq<Exchange>, out: Outcome)
    requires !op.Done?
    ensures Runs(wired, op, own, out) <==>
            |own| > 0 && own[0].call == Request(op) && Runs(wired, Resume(wired, op, own[0].reply), own[1..], out)
  {
  }

  /** What is left after two or three exchanges. */
  lemma Rests(own: seq<Exchange>)
    ensures |own| > 1 ==> own[1..][0] == own[1] && own[1..][1..] == own[2..]
    ensures |own| > 2 ==> own[2..][0] == own[2] && own[2..][1..] == own[3..] && own[1..][2..] == own[3..]
  {
  }

  /** How a validation ends for whoever asked for it. */
  predicate ValidationEnd(v: Validation, own: seq<Exchange>, out: Outcome)
    requires |own| > 0
  {
    match v.asker
    case AtSigning(status) =>
      if ValidationPassed(own) then
        && out.Signing? && out.status == status.(validation := out.status.validation)
        && out.status.validation.Some? && ResultFits(out.status.validation.value, own)
      else out == Signing(status)
    case OnDemand(sig) =>
      if ValidationPassed(own) then out.Validated? && out.sig == sig && ResultFits(out.res, own)
      else ValidationFailure(own, out)
  }

  lemma ReportsFit(sigID: string, answer: Answer)
    ensures forall report :: ReportFits(report, sigID, answer) <==> report == ReportOf(sigID, answer)
  {
  }

  /** From the normalized answer on; `own` is the whole validation. */
  lemma StoringTold(wired: bool, v: Validation, own: seq<Exchange>, out: Outcome)
    requires |own| > 2 && own[2].reply.Normalized?
    ensures Runs(wired, InValidation(v, VStore(own[2].reply.answer)), own[3..], out) <==>
              StoringCalls(v.sigID, own[2].reply.answer, own[3..]) && ValidationEnd(v, own, out)
  {
    hide Runs, ReportFits, ReportOf;
    ReportsFit(v.sigID, own[2].reply.answer);
    RunsDone(wired);
    var answer := own[2].reply.answer;
    RunsStep(wired, InValidation(v, VStore(answer)), own[3..], out);
    if |own| > 3 && own[3].reply.NewId? {
      assert own[3..][1..] == own[4..];
      RunsStep(wired, InValidation(v, VLink(answer, own[3].reply.id)), own[4..], out);
    }
  }

  /** From the fetched bytes on. */
  lemma CheckingTold(wired: bool, v: Validation, own: seq<Exchange>, out: Outcome)
    requires |own| > 0 && own[0].reply.Blob?
    ensures Runs(wired, InValidation(v, VValidate(own[0].reply.bytes)), own[1..], out) <==>
              CheckingCalls(v.sigID, own[0].reply.bytes, v.sigFormat, own[1..]) && ValidationEnd(v, own, out)
  {
    hide Runs, StoringCalls, ResultFits;
    RunsDone(wired);
    RunsStep(wired, InValidation(v, VValidate(own[0].reply.bytes)), own[1..], out);
    if |own| > 1 && own[1].reply.Report? {
      assert own[1..][1..] == own[2..];
      RunsStep(wired, InValidation(v, VNormalize(own[1].reply.report)), own[2..], out);
      if |own| > 2 && own[2].reply.Normalized? {
        assert own[2..][1..] == own[3..] && own[1..][2..] == own[3..];
        StoringTold(wired, v, own, out);
      }
    }
  }

  lemma ValidationTold(wired: bool, v: Validation, own: seq<Exchange>, out: Outcome)
    ensures Runs(wired, InValidation(v, VContent), own, out) <==>
              ValidationCalls(v.sigID, v.containerID, v.sigFormat, v.obo, own) && ValidationEnd(v, own, out)
  {
    hide Runs, CheckingCalls, ResultFits;
    RunsDone(wired);
    RunsStep(wired, InValidation(v, VContent), own, out);
    if |own| > 0 && own[0].reply.Blob? {
      CheckingTold(wired, v, own, out);
    }
  }

  lemma AtSigningTold(wired: bool, job: Job, token: string, ref: string, sigID: string, own: seq<Exchange>,
                      out: Outcome)
    ensures Runs(wired, AfterNotify(job, token, ref, sigID), own, out) <==>
              AtSigningStory(job, token, ref, sigID, own, out)
  {
    hide Runs, ValidationCalls, ValidationPassed, ResultFits;
    ValidationTold(wired, AtSigningValidation(job, token, ref, sigID), own, out);
  }

  lemma NotifyTold(wired: bool, job: Job, token: string, ref: string, sigID: string, own: seq<Exchange>, out: Outcome)
    ensures Runs(wired, AfterRelease(wired, job, token, ref, sigID), own, out) <==>
              NotifyStory(wired, job, token, ref, sigID, own, out)
  {
    hide Runs, AtSigningStory, AfterNotify;
    Rests(own);
    AtSigningTold(wired, job, token, ref, sigID, own, out);
    if wired && |own| > 0 {
      RunsStep(wired, InFinalize(job, token, FNotify(ref, sigID, 1)), own, out);
      AtSigningTold(wired, job, token, ref, sigID, own[1..], out);
      RunsStep(wired, InFinalize(job, token, FNotify(ref, sigID, 2)), own[1..], out);
      if |own| > 1 {
        AtSigningTold(wired, job, token, ref, sigID, own[2..], out);
      }
    }
    RunsStep(wired, InFinalize(job, token, FNotify(ref, sigID, 1)), own, out);
  }

  lemma MarkTold(wired: bool, job: Job, token: string, ref: string, sigID: string, own: seq<Exchange>, out: Outcome)
    ensures Runs(wired, InFinalize(job, token, FMark(ref, sigID)), own, out) <==>
              MarkStory(wired, job, token, ref, sigID, own, out)
  {
    hide Runs, AfterRelease, NotifyStory;
    Rests(own);
    RunsDone(wired);
    RunsStep(wired, InFinalize(job, token, FMark(ref, sigID)), own, out);
    if |own| > 0 && own[0].reply.Ack? {
      RunsStep(wired, InFinalize(job, token, FRelease(ref, sigID)), own[1..], out);
      NotifyTold(wired, job, token, ref, sigID, own[1..], out);
      if |own| > 1 {
        NotifyTold(wired, job, token, ref, sigID, own[2..], out);
      }
    }
  }

  lemma RecordTold(wired: bool, job: Job, token: string, ref: string, own: seq<Exchange>, out: Outcome)
    ensures Runs(wired, InFinalize(job, token, FInsert(ref)), own, out) <==>
              RecordStory(wired, job, token, ref, own, out)
  {
    hide Runs, MarkStory;
    RunsDone(wired);
    RunsStep(wired, InFinalize(job, token, FInsert(ref)), own, out);
    if |own| > 0 && own[0].reply.NewId? {
      MarkTold(wired, job, token, ref, own[0].reply.id, own[1..], out);
    }
  }

  lemma StoreTold(wired: bool, job: Job, token: string, docID: string, signed: Bytes, own: seq<Exchange>, out: Outcome)
    ensures Runs(wired, InFinalize(job, token, FMeta(docID, signed)), own, out) <==>
              StoreStory(wired, job, token, docID, signed, own, out)
  {
    hide Runs, RecordStory;
    Rests(own);
    RunsDone(wired);
    RunsStep(wired, InFinalize(job, token, FMeta(docID, signed)), own, out);
    if |own| > 0 && own[0].reply.Meta? {
      RunsStep(wired, InFinalize(job, token, FStore(docID, signed, own[0].reply.meta.filename)), own[1..], out);
      if |own| > 1 && own[1].reply.NewId? {
        RecordTold(wired, job, token, own[1].reply.id, own[2..], out);
      }
    }
  }

  lemma {:induction false} MergeTold(wired: bool, job: Job, token: string, docID: string, fileless: Bytes, left: nat,
                                     own: seq<Exchange>, out: Outcome)
    requires left <= 3
    ensures Runs(wired, InFinalize(job, token, FComplete(docID, fileless, 3 - left)), own, out) <==>
              MergeStory(wired, job, token, docID, fileless, left, own, out)
    decreases left
  {
    hide Runs, RecordStory;
    RunsDone(wired);
    RunsStep(wired, InFinalize(job, token, FComplete(docID, fileless, 3 - left)), own, out);
    if |own| > 0 {
      if left > 0 {
        MergeTold(wired, job, token, docID, fileless, left - 1, own[1..], out);
      }
      if own[0].reply.NewId? {
        RecordTold(wired, job, token, own[0].reply.id, own[1..], out);
      }
    }
  }

  lemma ArtifactTold(wired: bool, job: Job, token: string, docID: string, own: seq<Exchange>, out: Outcome)
    ensures Runs(wired, InFinalize(job, token, FDownload(docID)), own, out) <==>
              ArtifactStory(wired, job, token, docID, own, out)
  {
    hide Runs, StoreStory, MergeStory;
    RunsDone(wired);
    RunsStep(wired, InFinalize(job, token, FDownload(docID)), own, out);
    if |own| > 0 && own[0].reply.Blob? {
      StoreTold(wired, job, token, docID, own[0].reply.bytes, own[1..], out);
      MergeTold(wired, job, token, docID, own[0].reply.bytes, 3, own[1..], out);
    }
  }

  /** There is one picked document. */
  lemma PickedIsReady(documents: seq<DocRef>)
    ensures forall docID :: IsPicked(documents, docID) <==> docID == ReadyDocID(documents)
  {
    if i: nat :| FirstWithUrl(documents, i) {
      FirstReadyIsFirst(documents, i);
    } else {
      NoFirst(documents, |documents|);
      NoneReady(documents);
    }
  }

  lemma {:induction false} NoFirst(documents: seq<DocRef>, n: nat)
    requires n <= |documents| && forall i: nat :: !FirstWithUrl(documents, i)
    ensures forall i :: 0 <= i < n ==> documents[i].downloadURL == ""
  {
    if n > 0 {
      NoFirst(documents, n - 1);
      assert !FirstWithUrl(documents, n - 1);
    }
  }

  lemma FinalizeTold(wired: bool, job: Job, st: StatusResult, token: string, own: seq<Exchange>, out: Outcome)
    ensures Runs(wired, FinalizeOp(job, st, token), own, out) <==>
              FinalizeStory(wired, job, st.documents, token, own, out)
  {
    hide Runs, ArtifactStory, ReadyDocID, IsPicked;
    RunsDone(wired);
    PickedIsReady(st.documents);
    ArtifactTold(wired, job, token, ReadyDocID(st.documents), own, out);
    assert IsPicked(st.documents, ReadyDocID(st.documents));
  }

  lemma NotedTold(wired: bool, jobID: string, job: Job, token: string, st: StatusResult, own: seq<Exchange>,
                  out: Outcome)
    ensures Runs(wired, ResumeReconcile(jobID, RNote(job, token, st), Ack), own, out) <==>
              NotedStory(wired, jobID, job, token, st, own, out)
  {
    hide Runs, FinalizeOp, FinalizeStory;
    RunsDone(wired);
    RunsStep(wired, InReconcile(jobID, RKeep(job, st)), own, out);
    FinalizeTold(wired, job, st, token, own, out);
  }

  lemma AskTold(wired: bool, jobID: string, job: Job, wait: int, token: string, own: seq<Exchange>, out: Outcome)
    ensures Runs(wired, InReconcile(jobID, RStatus(job, wait, token)), own, out) <==>
              AskStory(wired, jobID, job, wait, token, own, out)
  {
    hide Runs, NotedStory, FinalizeOp;
    Rests(own);
    RunsDone(wired);
    RunsStep(wired, InReconcile(jobID, RStatus(job, wait, token)), own, out);
    if |own| > 0 && own[0].reply.Provider? {
      RunsStep(wired, InReconcile(jobID, RNote(job, token, own[0].reply.status)), own[1..], out);
      if |own| > 1 {
        NotedTold(wired, jobID, job, token, own[0].reply.status, own[2..], out);
      }
    }
  }

  lemma PollTold(wired: bool, jobID: string, wait: int, caller: string, token: string, own: seq<Exchange>,
                 out: Outcome)
    ensures Runs(wired, ReconcileOp(jobID, wait, caller, token), own, out) <==>
              PollStory(wired, jobID, wait, caller, token, own, out)
  {
    hide Runs, AskStory;
    RunsDone(wired);
    RunsStep(wired, ReconcileOp(jobID, wait, caller, token), own, out);
    if |own| > 0 && own[0].reply.JobRow? {
      AskTold(wired, jobID, own[0].reply.job, wait, token, own[1..], out);
    }
  }

  lemma ValidateTold(wired: bool, sigID: string, caller: string, token: string, own: seq<Exchange>, out: Outcome)
    ensures Runs(wired, ValidateOp(sigID, caller, token), own, out) <==>
              ValidateStory(sigID, caller, token, own, out)
  {
    hide Runs, ValidationCalls, ValidationPassed, ResultFits;
    Rests(own);
    RunsDone(wired);
    RunsStep(wired, ValidateOp(sigID, caller, token), own, out);
    if |own| > 0 && own[0].reply.SignatureRow? {
      var sig := own[0].reply.sig;
      RunsStep(wired, InValidate(sigID, caller, token, DJob(sig)), own[1..], out);
      if |own| > 1 && own[1].reply.JobRow? {
        var job := own[1].reply.job;
        var v := Validation(sigID, sig.signedDocumentRef, job.sigFormat, OnBehalf(job.callerSub, token), OnDemand(sig));
        ValidationTold(wired, v, own[2..], out);
      }
    }
  }

  lemma AbandonTold(wired: bool, jobID: string, caller: string, own: seq<Exchange>, out: Outcome)
    ensures Runs(wired, AbandonOp(jobID, caller), own, out) <==> AbandonStory(jobID, caller, own, out)
  {
    hide Runs;
    Rests(own);
    RunsDone(wired);
    RunsStep(wired, AbandonOp(jobID, caller), own, out);
    if |own| > 0 && own[0].reply.JobRow? {
      RunsStep(wired, InAbandon(ARelease(own[0].reply.job)), own[1..], out);
    }
  }

  lemma SubmitTold(wired: bool, jobID: string, sigs: seq<ClientSignature>, caller: string, own: seq<Exchange>,
                   out: Outcome)
    ensures Runs(wired, SubmitOp(jobID, sigs, caller), own, out) <==> SubmitStory(jobID, sigs, caller, own, out)
  {
    hide Runs;
    Rests(own);
    RunsDone(wired);
    RunsStep(wired, SubmitOp(jobID, sigs, caller), own, out);
    if |own| > 0 {
      RunsStep(wired, InSubmit(jobID, SSubmit(sigs)), own[1..], out);
      if |own| > 1 && own[1].reply.Provider? {
        RunsStep(wired, InSubmit(jobID, SNote(own[1].reply.status.state)), own[2..], out);
      }
    }
  }

  // ---- Begin's story ----

  predicate HoldsLock(input: BeginInput, meta: Metadata) {
    TakesLock(input.envelopeID, FormatOf(input, meta))
  }

  /** A Begin that fails under the lock has the release as its last call. */
  predicate GivesBack(locked: bool, input: BeginInput, own: seq<Exchange>, out: Outcome) {
    locked && !out.Began? ==>
      |own| > 0 && own[|own| - 1].call == ToStore(ReleaseChainLock(input.envelopeID, input.slotID))
  }

  /** The exchanges before that release. */
  function Before(locked: bool, own: seq<Exchange>, out: Outcome): seq<Exchange> {
    if locked && !out.Began? && |own| > 0 then own[..|own| - 1] else own
  }

  lemma BeforeLater(locked: bool, own: seq<Exchange>, out: Outcome)
    ensures |own| > 1 ==> |Before(locked, own, out)| > 0 && Before(locked, own, out)[0] == own[0]
                          && Before(locked, own[1..], out) == Before(locked, own, out)[1..]
    ensures |own| == 1 && locked && !out.Began? ==> Before(locked, own, out) == []
  {
  }

  lemma FailureTold(wired: bool, input: BeginInput, meta: Metadata, error: Error, own: seq<Exchange>, out: Outcome)
    ensures Runs(wired, BFail(input, meta, error), own, out) <==>
              && out == Rejected(error) && GivesBack(HoldsLock(input, meta), input, own, out)
              && Before(HoldsLock(input, meta), own, out) == []
              && (own == [] || (|own| == 1 && HoldsLock(input, meta)))
  {
    hide Runs;
    RunsDone(wired);
    RunsStep(wired, InBegin(input, BUndo(error)), own, out);
  }

  lemma DigestsFit(documents: seq<DocRef>)
    ensures forall digests :: SameDigests(digests, documents) <==> digests == DigestsOf(documents)
  {
    forall digests | SameDigests(digests, documents) ensures digests == DigestsOf(documents) {
      assert forall i :: 0 <= i < |digests| ==> digests[i] == DigestsOf(documents)[i];
    }
  }

  lemma FilesFit(objects: seq<DataObject>)
    ensures forall files :: SameFiles(files, objects) <==> files == FilesOf(objects)
  {
    forall files | SameFiles(files, objects) ensures files == FilesOf(objects) {
      assert forall i :: 0 <= i < |files| ==> files[i] == FilesOf(objects)[i];
    }
  }

  lemma SaveTold(wired: bool, input: BeginInput, meta: Metadata, prep: PrepareResult, own: seq<Exchange>, out: Outcome)
    ensures var locked := HoldsLock(input, meta);
            Runs(wired, InBegin(input, BSave(meta, prep)), own, out) <==>
              && GivesBack(locked, input, own, out)
              && SaveStory(input, FormatOf(input, meta), prep, Before(locked, own, out), out)
  {
    hide Runs, BFail, FormatOf, HoldsLock, DigestsOf, SameDigests;
    RunsDone(wired);
    RunsStep(wired, InBegin(input, BSave(meta, prep)), own, out);
    DigestsFit(prep.documents);
    BeforeLater(HoldsLock(input, meta), own, out);
    if |own| > 0 {
      FailureTold(wired, input, meta, Wrapped(PersistJob, FaultOf(own[0].reply)), own[1..], out);
    }
  }

  /** Handing the document over, and what follows. */
  lemma HandedTold(wired: bool, input: BeginInput, b: Beginning, own: seq<Exchange>, out: Outcome)
    requires b.BPrepareFile? || b.BPrepare?
    ensures var locked := HoldsLock(input, b.meta);
            Runs(wired, InBegin(input, b), own, out) <==>
              && |own| > 0 && own[0].call == BeginCall(input, b) && GivesBack(locked, input, own, out)
              && |Before(locked, own, out)| > 0
              && PreparedStory(input, FormatOf(input, b.meta), Before(locked, own, out), out)
  {
    hide Runs, BFail, FormatOf, HoldsLock, SaveStory;
    RunsStep(wired, InBegin(input, b), own, out);
    BeforeLater(HoldsLock(input, b.meta), own, out);
    if |own| > 0 {
      var r := own[0].reply;
      if r.Prepared? {
        SaveTold(wired, input, b.meta, r.prep, own[1..], out);
      } else {
        FailureTold(wired, input, b.meta, Wrapped(PrepareJob, FaultOf(r)), own[1..], out);
      }
    }
  }

  lemma SendingBytes(input: BeginInput, docID: string, meta: Metadata, bytes: Bytes)
    ensures forall call :: SendsBytes(call, input, docID, meta, bytes) <==>
                             call == BeginCall(input, BPrepareFile(docID, meta, bytes))
  {
  }

  lemma SendingFiles(input: BeginInput, docID: string, meta: Metadata, objects: seq<DataObject>)
    ensures meta.kind == Container ==>
              forall call :: SendsFiles(call, input, docID, meta, FormatOf(input, meta), objects) <==>
                               call == BeginCall(input, BPrepare(docID, meta, FilesOf(objects)))
  {
    hide FilesOf, SameFiles, FormatOf;
    FilesFit(objects);
  }

  lemma SendingHash(input: BeginInput, docID: string, meta: Metadata)
    ensures meta.kind != Container ==>
              forall call :: SendsHash(call, input, docID, meta, FormatOf(input, meta)) <==>
                               call == BeginCall(input, BPrepare(docID, meta, []))
  {
    hide FormatOf;
  }

  lemma PdfTold(wired: bool, input: BeginInput, docID: string, meta: Metadata, own: seq<Exchange>, out: Outcome)
    requires FormatOf(input, meta) == PAdES
    ensures var locked := HoldsLock(input, meta);
            Runs(wired, InBegin(input, BContent(docID, meta)), own, out) <==>
              GivesBack(locked, input, own, out) && PdfStory(input, docID, meta, Before(locked, own, out), out)
  {
    hide Runs, BFail, FormatOf, HoldsLock, PreparedStory, SendsBytes;
    Rests(own);
    BeforeLater(HoldsLock(input, meta), own, out);
    RunsStep(wired, InBegin(input, BContent(docID, meta)), own, out);
    if |own| > 0 {
      var r := own[0].reply;
      if r.Blob? {
        HandedTold(wired, input, BPrepareFile(docID, meta, r.bytes), own[1..], out);
        SendingBytes(input, docID, meta, r.bytes);
      } else {
        FailureTold(wired, input, meta, Wrapped(FetchBytes, FaultOf(r)), own[1..], out);
      }
    }
  }

  lemma ContainerTold(wired: bool, input: BeginInput, docID: string, meta: Metadata, own: seq<Exchange>, out: Outcome)
    requires meta.kind == Container
    ensures var locked := HoldsLock(input, meta);
            Runs(wired, InBegin(input, BObjects(docID, meta)), own, out) <==>
              && GivesBack(locked, input, own, out)
              && ContainerStory(input, docID, meta, FormatOf(input, meta), Before(locked, own, out), out)
  {
    hide Runs, BFail, FormatOf, HoldsLock, PreparedStory, SendsFiles;
    Rests(own);
    BeforeLater(HoldsLock(input, meta), own, out);
    RunsStep(wired, InBegin(input, BObjects(docID, meta)), own, out);
    if |own| > 0 {
      var r := own[0].reply;
      if r.Objects? {
        HandedTold(wired, input, BPrepare(docID, meta, FilesOf(r.objects)), own[1..], out);
        SendingFiles(input, docID, meta, r.objects);
      } else {
        FailureTold(wired, input, meta, Wrapped(FetchObjects, FaultOf(r)), own[1..], out);
      }
    }
  }

  lemma PrepareTold(wired: bool, input: BeginInput, docID: string, meta: Metadata, own: seq<Exchange>, out: Outcome)
    ensures var locked := HoldsLock(input, meta);
            Runs(wired, BPrepareStart(input, docID, meta), own, out) <==>
              && GivesBack(locked, input, own, out)
              && PrepareStory(input, docID, meta, FormatOf(input, meta), Before(locked, own, out), out)
  {
    hide Runs, PdfStory, ContainerStory, PreparedStory, HoldsLock, FormatOf, SendsHash;
    if FormatOf(input, meta) == PAdES {
      PdfTold(wired, input, docID, meta, own, out);
    } else if meta.kind == Container {
      ContainerTold(wired, input, docID, meta, own, out);
    } else {
      HandedTold(wired, input, BPrepare(docID, meta, []), own, out);
      SendingHash(input, docID, meta);
      BeforeLater(HoldsLock(input, meta), own, out);
    }
  }

  lemma LockTold(wired: bool, input: BeginInput, docID: string, meta: Metadata, own: seq<Exchange>, out: Outcome)
    requires HoldsLock(input, meta)
    ensures Runs(wired, InBegin(input, BAcquire(docID, meta)), own, out) <==>
              LockStory(input, docID, meta, own, out)
  {
    hide Runs, BPrepareStart, PrepareStory;
    Rests(own);
    RunsDone(wired);
    RunsStep(wired, InBegin(input, BAcquire(docID, meta)), own, out);
    if |own| > 0 {
      PrepareTold(wired, input, docID, meta, own[1..], out);
    }
  }

  lemma DocumentTold(wired: bool, input: BeginInput, docID: string, own: seq<Exchange>, out: Outcome)
    ensures Runs(wired, InBegin(input, BMeta(docID)), own, out) <==> DocumentStory(input, docID, own, out)
  {
    hide Runs, BPrepareStart, PrepareStory, LockStory;
    RunsDone(wired);
    RunsStep(wired, InBegin(input, BMeta(docID)), own, out);
    if |own| > 0 && own[0].reply.Meta? {
      var meta := own[0].reply.meta;
      if HoldsLock(input, meta) {
        LockTold(wired, input, docID, meta, own[1..], out);
      } else {
        PrepareTold(wired, input, docID, meta, own[1..], out);
      }
    }
  }

  lemma HeadTold(wired: bool, input: BeginInput, own: seq<Exchange>, out: Outcome)
    ensures Runs(wired, InBegin(input, BEnvelope), own, out) <==> HeadStory(input, own, out)
  {
    hide Runs, DocumentStory;
    Rests(own);
    RunsDone(wired);
    RunsStep(wired, InBegin(input, BEnvelope), own, out);
    if |own| > 0 {
      var view := own[0].reply;
      var root := if view.EnvelopeView? && RootDocument(view.documents) != "" then RootDocument(view.documents)
                  else input.documentID;
      RunsStep(wired, InBegin(input, BHead(root)), own[1..], out);
      if |own| > 1 && own[1].reply.Head? {
        DocumentTold(wired, input, if own[1].reply.headID != "" then own[1].reply.headID else root, own[2..], out);
      }
    }
  }

  lemma PermitsMay(login: LoginMethod, flow: Flow)
    ensures Permits(login, flow) <==> MayDrive(login, flow)
  {
  }

  lemma BeginTold(wired: bool, input: BeginInput, own: seq<Exchange>, out: Outcome)
    ensures Runs(wired, BeginOp(wired, input), own, out) <==> BeginStory(wired, input, own, out)
  {
    hide Runs, DocumentStory, HeadStory, Permits, MayDrive;
    RunsDone(wired);
    PermitsMay(input.loginMethod, input.flow);
    HeadTold(wired, input, own, out);
    DocumentTold(wired, input, input.documentID, own, out);
  }

  // ---- in every environment ----

  lemma BeginTells(wired: bool, input: BeginInput, s: Setting)
    ensures var (t, out) := Drive(wired, BeginOp(wired, input), s);
            Extends(s, t) && BeginStory(wired, input, Since(s, t), out)
  {
    hide Drive, BeginOp, Since, Extends, BeginStory;
    DriveRuns(wired, BeginOp(wired, input), s);
    var (t, out) := Drive(wired, BeginOp(wired, input), s);
    BeginTold(wired, input, Since(s, t), out);
  }

  lemma PollTells(wired: bool, jobID: string, wait: int, caller: string, token: string, s: Setting)
    ensures var (t, out) := Drive(wired, ReconcileOp(jobID, wait, caller, token), s);
            Extends(s, t) && PollStory(wired, jobID, wait, caller, token, Since(s, t), out)
  {
    hide Drive, ReconcileOp, Since, Extends, PollStory;
    DriveRuns(wired, ReconcileOp(jobID, wait, caller, token), s);
    var (t, out) := Drive(wired, ReconcileOp(jobID, wait, caller, token), s);
    PollTold(wired, jobID, wait, caller, token, Since(s, t), out);
  }

  lemma FinalizeTells(wired: bool, job: Job, st: StatusResult, token: string, s: Setting)
    ensures var (t, out) := Drive(wired, FinalizeOp(job, st, token), s);
            Extends(s, t) && FinalizeStory(wired, job, st.documents, token, Since(s, t), out)
  {
    hide Drive, FinalizeOp, Since, Extends, FinalizeStory;
    DriveRuns(wired, FinalizeOp(job, st, token), s);
    var (t, out) := Drive(wired, FinalizeOp(job, st, token), s);
    FinalizeTold(wired, job, st, token, Since(s, t), out);
  }

  lemma ValidateTells(wired: bool, sigID: string, caller: string, token: string, s: Setting)
    ensures var (t, out) := Drive(wired, ValidateOp(sigID, caller, token), s);
            Extends(s, t) && ValidateStory(sigID, caller, token, Since(s, t), out)
  {
    hide Drive, ValidateOp, Since, Extends, ValidateStory;
    DriveRuns(wired, ValidateOp(sigID, caller, token), s);
    var (t, out) := Drive(wired, ValidateOp(sigID, caller, token), s);
    ValidateTold(wired, sigID, caller, token, Since(s, t), out);
  }

  lemma AbandonTells(wired: bool, jobID: string, caller: string, s: Setting)
    ensures var (t, out) := Drive(wired, AbandonOp(jobID, caller), s);
            Extends(s, t) && AbandonStory(jobID, caller, Since(s, t), out)
  {
    hide Drive, AbandonOp, Since, Extends, AbandonStory;
    DriveRuns(wired, AbandonOp(jobID, caller), s);
    var (t, out) := Drive(wired, AbandonOp(jobID, caller), s);
    AbandonTold(wired, jobID, caller, Since(s, t), out);
  }

  lemma SubmitTells(wired: bool, jobID: string, sigs: seq<ClientSignature>, caller: string, s: Setting)
    ensures var (t, out) := Drive(wired, SubmitOp(jobID, sigs, caller), s);
            Extends(s, t) && SubmitStory(jobID, sigs, caller, Since(s, t), out)
  {
    hide Drive, SubmitOp, Since, Extends, SubmitStory;
    DriveRuns(wired, SubmitOp(jobID, sigs, caller), s);
    var (t, out) := Drive(wired, SubmitOp(jobID, sigs, caller), s);
    SubmitTold(wired, jobID, sigs, caller, Since(s, t), out);
  }
}
