/** What the stories say about single operations in plain words: which document is prepared and how, which document a
    finished signing is about, what a poll answers, who may validate what. Of every run, in every environment. */
module Answers {
  import opened Protocol
  import opened StoreSpec
  import opened Choreography
  import opened Solo
  import opened CallByCall
  import opened Stories
  import opened Telling

  // ---- what Begin sends to the provider ----

  predicate IsPrepare(call: Call) {
    call.ToPort? && (call.p.Prepare? || call.p.PrepareWithFile?)
  }

  /** The i-th call hands over the document with this metadata: a PDF as the bytes just read, a container as the data
      objects just listed, anything else as its hash. */
  predicate HandedOver(own: seq<Exchange>, i: nat, docID: string, meta: Metadata, obo: OnBehalf)
    requires i < |own|
  {
    IsPrepare(own[i].call) &&
    match own[i].call.p
    case Prepare(_, doc, _) =>
      && Describes(doc, docID, meta, doc.signatureFormat) && doc.fileRef == NoFile
      && if meta.kind == Container then
           && i > 0 && own[i - 1].call == ToPort(DataObjects(docID, obo)) && own[i - 1].reply.Objects?
           && HashesNothing(doc) && SameFiles(doc.files, own[i - 1].reply.objects)
         else doc.documentHash == meta.contentHash && doc.digestAlgorithm == SHA_256 && doc.files == []
    case PrepareWithFile(_, doc, file, _) =>
      && Describes(doc, docID, meta, PAdES) && doc.fileRef == File0 && HashesNothing(doc) && doc.files == []
      && i > 0 && own[i - 1].call == ToPort(Content(docID, obo)) && own[i - 1].reply == Blob(file)
    case _ => false
  }

  predicate HandsOver(own: seq<Exchange>, docID: string, meta: Metadata, obo: OnBehalf) {
    forall i :: 0 <= i < |own| && IsPrepare(own[i].call) ==> HandedOver(own, i, docID, meta, obo)
  }

  lemma PrepareHandsOver(input: BeginInput, docID: string, meta: Metadata, sigFormat: Format, own: seq<Exchange>,
                         out: Outcome)
    requires PrepareStory(input, docID, meta, sigFormat, own, out)
    ensures HandsOver(own, docID, meta, OnBehalf(input.callerSub, input.subjectToken))
  {
  }

  lemma LaterHandsOver(before: seq<Exchange>, own: seq<Exchange>, after: seq<Exchange>, docID: string, meta: Metadata,
                       obo: OnBehalf)
    requires HandsOver(own, docID, meta, obo)
    requires forall e :: e in before || e in after ==> !IsPrepare(e.call)
    ensures HandsOver(before + own + after, docID, meta, obo)
  {
    var all, n := before + own + after, |before|;
    assert forall i :: 0 <= i < n ==> all[i] == before[i];
    assert forall i :: n + |own| <= i < |all| ==> all[i] == after[i - n - |own|];
    forall i | 0 <= i < |all| && IsPrepare(all[i].call) ensures HandedOver(all, i, docID, meta, obo) {
      assert all[i] == own[i - n] && HandedOver(own, i - n, docID, meta, obo);
    }
  }

  /** The i-th call hands over the document whose metadata was read before. */
  predicate PreparedAsRead(own: seq<Exchange>, m: nat, i: nat, obo: OnBehalf)
    requires m < i < |own|
  {
    && own[m].call.ToPort? && own[m].call.p.GetMetadata? && own[m].call.p.obo == obo && own[m].reply.Meta?
    && HandedOver(own, i, own[m].call.p.docID, own[m].reply.meta, obo)
  }

  lemma LockHandsOver(input: BeginInput, docID: string, meta: Metadata, own: seq<Exchange>, out: Outcome)
    requires UnderLock(input, docID, meta, own, out)
    ensures HandsOver(own, docID, meta, OnBehalf(input.callerSub, input.subjectToken))
  {
    var obo := OnBehalf(input.callerSub, input.subjectToken);
    hide PrepareStory, HandsOver;
    if out.Began? {
      PrepareHandsOver(input, docID, meta, PAdES, own, out);
    } else {
      var rest := own[..|own| - 1];
      PrepareHandsOver(input, docID, meta, PAdES, rest, out);
      LaterHandsOver([], rest, [own[|own| - 1]], docID, meta, obo);
      assert [] + rest + [own[|own| - 1]] == own;
    }
  }

  lemma DocumentHandsOver(input: BeginInput, docID: string, own: seq<Exchange>, out: Outcome)
    requires DocumentStory(input, docID, own, out)
    ensures !own[0].reply.Meta? ==> |own| == 1
    ensures own[0].reply.Meta? ==>
              HandsOver(own, docID, own[0].reply.meta, OnBehalf(input.callerSub, input.subjectToken))
  {
    var obo := OnBehalf(input.callerSub, input.subjectToken);
    hide PrepareStory, UnderLock, HandsOver;
    if own[0].reply.Meta? {
      var meta := own[0].reply.meta;
      var sigFormat := if meta.kind == Container then XAdES else if meta.kind == Pdf then PAdES else input.sigFormat;
      if !LocksChain(input.envelopeID, sigFormat) {
        PrepareHandsOver(input, docID, meta, sigFormat, own[1..], out);
        LaterHandsOver([own[0]], own[1..], [], docID, meta, obo);
        assert [own[0]] + own[1..] + [] == own;
      } else {
        LockedDocument(input, docID, meta, own, out);
      }
    }
  }

  lemma LockedDocument(input: BeginInput, docID: string, meta: Metadata, own: seq<Exchange>, out: Outcome)
    requires |own| > 0 && !IsPrepare(own[0].call) && LockStory(input, docID, meta, own[1..], out)
    ensures HandsOver(own, docID, meta, OnBehalf(input.callerSub, input.subjectToken))
  {
    var obo := OnBehalf(input.callerSub, input.subjectToken);
    hide UnderLock, HandedOver;
    var rest, lead := own[2..], own[..2];
    if UnderLock(input, docID, meta, rest, out) {
      LockHandsOver(input, docID, meta, rest, out);
    }
    assert own[1..][1..] == rest && lead == [own[0], own[1..][0]];
    LaterHandsOver(lead, rest, [], docID, meta, obo);
    assert lead + rest + [] == own;
  }

  /** Whatever a Begin is answered: each document it hands to the provider is the one whose metadata it read, under that
      metadata's name and type; a container goes as the data objects listed by the reply just before, position by
      position, and has no hash of its own; a PDF goes as exactly the bytes of the reply just before; anything else goes
      as the hash that the metadata gives. */
  lemma BeginPrepares(wired: bool, input: BeginInput, s: Setting)
    ensures var own := Since(s, Drive(wired, BeginOp(wired, input), s).0);
            var obo := OnBehalf(input.callerSub, input.subjectToken);
            forall i :: 0 <= i < |own| && IsPrepare(own[i].call) ==>
                          exists m :: 0 <= m < i && PreparedAsRead(own, m, i, obo)
  {
    BeginTells(wired, input, s);
    hide Drive, Since, DocumentStory;
    var (t, out) := Drive(wired, BeginOp(wired, input), s);
    var own := Since(s, t);
    var obo := OnBehalf(input.callerSub, input.subjectToken);
    if own != [] {
      if wired && input.envelopeID != "" {
        HeadPrepares(input, own, out);
      } else {
        DocumentPrepares(input, input.documentID, [], own, out);
        assert [] + own == own;
      }
    }
  }

  lemma HeadPrepares(input: BeginInput, own: seq<Exchange>, out: Outcome)
    requires HeadStory(input, own, out)
    ensures forall i :: 0 <= i < |own| && IsPrepare(own[i].call) ==>
              exists m :: 0 <= m < i && PreparedAsRead(own, m, i, OnBehalf(input.callerSub, input.subjectToken))
  {
    hide DocumentStory;
    if own[1].reply.Head? {
      var docID :| DocumentStory(input, docID, own[2..], out);
      DocumentPrepares(input, docID, own[..2], own[2..], out);
      assert own[..2] + own[2..] == own;
    }
  }

  lemma DocumentPrepares(input: BeginInput, docID: string, before: seq<Exchange>, own: seq<Exchange>, out: Outcome)
    requires DocumentStory(input, docID, own, out)
    requires forall e :: e in before ==> !IsPrepare(e.call)
    ensures var all := before + own;
            forall i :: 0 <= i < |all| && IsPrepare(all[i].call) ==>
              exists m :: 0 <= m < i && PreparedAsRead(all, m, i, OnBehalf(input.callerSub, input.subjectToken))
  {
    var obo := OnBehalf(input.callerSub, input.subjectToken);
    var all, n := before + own, |before|;
    DocumentHandsOver(input, docID, own, out);
    assert forall i :: 0 <= i < n ==> all[i] == before[i];
    assert all[n] == own[0] && !IsPrepare(all[n].call);
    if own[0].reply.Meta? {
      LaterHandsOver(before, own, [], docID, own[0].reply.meta, obo);
      assert before + own + [] == all;
    }
    forall i | 0 <= i < |all| && IsPrepare(all[i].call) ensures exists m :: 0 <= m < i && PreparedAsRead(all, m, i, obo)
    {
      assert PreparedAsRead(all, n, i, obo);
    }
  }

  // ---- which document a finished signing is about ----

  /** The call, if it is one of those that fetch, describe, store or merge a signed document, is about this document. */
  predicate IsAbout(docID: string, call: Call) {
    call.ToPort? ==>
      match call.p
      case Download(_, id, _) => id == docID
      case GetMetadata(id, _) => id == docID
      case StoreSignedDocument(parentID, _, _, _, _) => parentID == docID
      case Complete(id, _, _) => id == docID
      case _ => true
  }

  predicate AllAbout(docID: string, own: seq<Exchange>) {
    forall i :: 0 <= i < |own| ==> IsAbout(docID, own[i].call)
  }

  lemma ValidationIsAbout(sigID: string, ref: string, sigFormat: Format, obo: OnBehalf, own: seq<Exchange>,
                          docID: string)
    requires ValidationCalls(sigID, ref, sigFormat, obo, own)
    ensures AllAbout(docID, own)
  {
    assert |own| > 3 ==> own[3..][0] == own[3];
    assert |own| > 4 ==> own[3..][1] == own[4];
  }

  lemma LaterAbout(docID: string, own: seq<Exchange>, n: nat)
    requires n <= |own| && AllAbout(docID, own[..n]) && AllAbout(docID, own[n..])
    ensures AllAbout(docID, own)
  {
    forall i | 0 <= i < |own| ensures IsAbout(docID, own[i].call) {
      assert own[i] == if i < n then own[..n][i] else own[n..][i - n];
    }
  }

  lemma NotifyIsAbout(wired: bool, job: Job, token: string, ref: string, sigID: string, own: seq<Exchange>,
                      out: Outcome, docID: string)
    requires NotifyStory(wired, job, token, ref, sigID, own, out)
    ensures AllAbout(docID, own)
  {
    hide ValidationCalls;
    var n := if !wired then 0 else if own[0].reply.Ack? then 1 else 2;
    assert own[0..] == own;
    ValidationIsAbout(sigID, ref, job.sigFormat, OnBehalf(job.callerSub, token), own[n..], docID);
    LaterAbout(docID, own, n);
  }

  lemma RecordIsAbout(wired: bool, job: Job, token: string, ref: string, own: seq<Exchange>, out: Outcome,
                      docID: string)
    requires RecordStory(wired, job, token, ref, own, out)
    ensures AllAbout(docID, own)
  {
    hide NotifyStory;
    if own[0].reply.NewId? {
      var sigID, rest := own[0].reply.id, own[1..];
      assert rest[0] == own[1];
      if rest[0].reply.Ack? {
        var n := if LocksChain(job.envelopeID, job.sigFormat) then 2 else 1;
        NotifyIsAbout(wired, job, token, ref, sigID, rest[n..], out, docID);
        LaterAbout(docID, rest, n);
      }
      LaterAbout(docID, own, 1);
    }
  }

  lemma StoreIsAbout(wired: bool, job: Job, token: string, docID: string, signed: Bytes, own: seq<Exchange>,
                     out: Outcome)
    requires StoreStory(wired, job, token, docID, signed, own, out)
    ensures AllAbout(docID, own)
  {
    hide RecordStory;
    if |own| > 1 && own[1].reply.NewId? {
      RecordIsAbout(wired, job, token, own[1].reply.id, own[2..], out, docID);
      LaterAbout(docID, own, 2);
    }
  }

  lemma {:induction false} MergeIsAbout(wired: bool, job: Job, token: string, docID: string, fileless: Bytes,
                                        left: nat, own: seq<Exchange>, out: Outcome)
    requires MergeStory(wired, job, token, docID, fileless, left, own, out)
    ensures AllAbout(docID, own)
    decreases left
  {
    hide RecordStory;
    if own[0].reply == Fail(Http(409)) && left > 0 {
      MergeIsAbout(wired, job, token, docID, fileless, left - 1, own[1..], out);
      LaterAbout(docID, own, 1);
    } else if own[0].reply.NewId? {
      RecordIsAbout(wired, job, token, own[0].reply.id, own[1..], out, docID);
      LaterAbout(docID, own, 1);
    }
  }

  /** Some document is picked, and only one; it is none exactly when there is none, or the one to take has no id. */
  lemma OnePicked(documents: seq<DocRef>) returns (docID: string)
    ensures forall id :: IsPicked(documents, id) <==> id == docID
    ensures documents == [] ==> docID == ""
  {
    PickedIsReady(documents);
    docID := ReadyDocID(documents);
  }

  /** A finalizing pass first fetches the picked document's artifact, in the job's own form, and everything it fetches,
      describes, stores or merges is about that document; with none picked it asks nothing of anybody. */
  lemma FinalizePicks(wired: bool, job: Job, st: StatusResult, token: string, docID: string, s: Setting)
    requires IsPicked(st.documents, docID)
    ensures var (t, out) := Drive(wired, FinalizeOp(job, st, token), s);
            var own := Since(s, t);
            && Extends(s, t)
            && (docID == "" ==> own == [] && out == Rejected(ErrProviderState))
            && (docID != "" ==>
                  && |own| > 0 && AllAbout(docID, own)
                  && own[0].call == ToPort(Download(job.jobID, docID, if job.sigFormat == PAdES then PAdES else XAdES)))
  {
    FinalizeTells(wired, job, st, token, s);
    hide Drive, Since, Extends, IsPicked, StoreStory, MergeStory;
    var (t, out) := Drive(wired, FinalizeOp(job, st, token), s);
    var own := Since(s, t);
    if docID != "" && own[0].reply.Blob? {
      if job.sigFormat == PAdES {
        StoreIsAbout(wired, job, token, docID, own[0].reply.bytes, own[1..], out);
      } else {
        MergeIsAbout(wired, job, token, docID, own[0].reply.bytes, 3, own[1..], out);
      }
      LaterAbout(docID, own, 1);
    }
  }

  /** The first document with a download URL is the one, whatever else the provider lists. */
  lemma FinalizeTakesTheFirstReady(wired: bool, job: Job, st: StatusResult, token: string, i: nat, s: Setting)
    requires FirstWithUrl(st.documents, i) && st.documents[i].documentID != ""
    ensures var own := Since(s, Drive(wired, FinalizeOp(job, st, token), s).0);
            var docID := st.documents[i].documentID;
            && |own| > 0 && AllAbout(docID, own)
            && own[0].call == ToPort(Download(job.jobID, docID, if job.sigFormat == PAdES then PAdES else XAdES))
  {
    hide Drive, Since, AllAbout;
    FinalizePicks(wired, job, st, token, st.documents[i].documentID, s);
  }

  /** With none ready it is the first of all, and with none at all the job is rejected without a call. */
  lemma FinalizeFallsBack(wired: bool, job: Job, st: StatusResult, token: string, s: Setting)
    requires forall j :: 0 <= j < |st.documents| ==> st.documents[j].downloadURL == ""
    ensures var (t, out) := Drive(wired, FinalizeOp(job, st, token), s);
            var own := Since(s, t);
            if st.documents == [] || st.documents[0].documentID == "" then
              own == [] && out == Rejected(ErrProviderState)
            else
              var docID := st.documents[0].documentID;
              && |own| > 0 && AllAbout(docID, own)
              && own[0].call == ToPort(Download(job.jobID, docID, if job.sigFormat == PAdES then PAdES else XAdES))
  {
    hide Drive, Since, AllAbout;
    FinalizePicks(wired, job, st, token, if |st.documents| > 0 then st.documents[0].documentID else "", s);
  }

  // ---- what a poll answers ----

  /** While the provider is at work the poll relays what it says, and a provider's failure is a failure and the end of
      it: nobody is asked anything more, but that a pending PAdES job on an envelope renews its lease. */
  lemma UnfinishedPollRelays(wired: bool, jobID: string, wait: int, caller: string, token: string, s: Setting)
    ensures var (t, out) := Drive(wired, ReconcileOp(jobID, wait, caller, token), s);
            var own := Since(s, t);
            |own| > 2 && own[1].reply.Provider? && own[1].reply.status.state != READY && own[2].reply.Ack? ==>
              var st := own[1].reply.status;
              && own[1].call == ToPort(Status(jobID, wait))
              && own[2].call == ToStore(ReconcileJob(jobID, st.state))
              && out.Signing? && out.status.jobID == jobID && out.status.state == st.state
              && out.status.containerID == "" && out.status.signatureID == "" && out.status.envelopeID == ""
              && out.status.slotID == "" && out.status.validation == None
              && (st.state == FAILED ==>
                    && |own| == 3 && out.status.verificationCode == "" && out.status.verificationMessage == ""
                    && out.status.signingDeadline == 0)
              && (st.state != FAILED ==>
                    && out.status.verificationCode == st.verificationCode
                    && out.status.verificationMessage == st.verificationMessage
                    && out.status.signingDeadline == st.signingDeadline
                    && own[0].reply.JobRow?
                    && var job := own[0].reply.job;
                    if job.sigFormat == PAdES && job.envelopeID != "" then
                      && |own| == 4
                      && own[3].call ==
                         ToStore(AcquireChainLock(job.envelopeID, job.slotID, job.callerSub, 300))
                    else |own| == 3)
  {
    PollTells(wired, jobID, wait, caller, token, s);
    hide Drive, Since, FinalizeStory;
  }

  // ---- calls that only read ----

  predicate OnlyReads(call: Call) {
    call.ToPort? || call.s.GetJob? || call.s.GetSignature? || call.s.ChainLockStatus?
  }

  /** The store as others leave it during the first n turns. */
  function OthersLeave(store: StoreState, now: int, script: seq<Turn>, n: nat): StoreState
    decreases n
  {
    if n == 0 || |script| == 0 then store
    else
      var (store', then') := Interfere(store, now, script[0].others);
      OthersLeave(store', then' + script[0].elapsed, script[1..], n - 1)
  }

  lemma ReadChangesNothing(s: Setting, call: Call, n: nat)
    requires OnlyReads(call) && n > 0
    ensures var t := Exchanged(s, call).0;
            OthersLeave(s.store, s.now, s.script, n) == OthersLeave(t.store, t.now, t.script, n - 1)
  {
    hide Interfere;
  }

  /** A run that only reads leaves the store as others left it. */
  lemma {:induction false} ReadingRun(wired: bool, op: Op, s: Setting)
    ensures var t := Drive(wired, op, s).0;
            && Extends(s, t)
            && var own := Since(s, t);
            (forall i :: 0 <= i < |own| ==> OnlyReads(own[i].call)) ==>
              t.store == OthersLeave(s.store, s.now, s.script, |own|)
    decreases Rank(op)
  {
    hide Drive, Exchanged, Request, Resume, Rank, OnlyReads;
    DriveTrace(wired, op, s);
    if op.Done? {
      DoneEnds(wired);
      assert op == Done(op.outcome);
    } else {
      DriveStep(wired, op, s);
      ExchangedTrace(s, Request(op));
      var (s', r) := Exchanged(s, Request(op));
      EveryReplyIsProgress(wired, op, r);
      ReadingRun(wired, Resume(wired, op, r), s');
      var t := Drive(wired, op, s).0;
      assert t.trace[|s.trace|] == t.trace[..|s'.trace|][|s.trace|];
      assert Since(s, t) == [s'.trace[|s.trace|]] + Since(s', t);
      if OnlyReads(Request(op)) {
        ReadChangesNothing(s, Request(op), |Since(s, t)|);
      }
    }
  }

  // ---- validation on demand ----

  /** Whoever asks and whoever owns the record: it is read, then its job, and that is all, and the store stays as others
      leave it, unless the caller may ask and the record names a document. A stranger is forbidden; for the owner of a
      record without a document there is nothing to validate. */
  lemma ValidateRefuses(wired: bool, sigID: string, caller: string, token: string, s: Setting)
    ensures var (t, out) := Drive(wired, ValidateOp(sigID, caller, token), s);
            var own := Since(s, t);
            |own| > 1 && own[0].reply.SignatureRow? && own[1].reply.JobRow? ==>
              var (sig, job) := (own[0].reply.sig, own[1].reply.job);
              var stranger := caller != "" && job.callerSub != caller;
              && own[0].call == ToStore(GetSignature(sigID)) && own[1].call == ToStore(GetJob(sig.jobID))
              && (stranger || sig.signedDocumentRef == "" ==>
                    && |own| == 2 && t.store == OthersLeave(s.store, s.now, s.script, 2)
                    && out == Rejected(if stranger then ErrForbidden else ErrProviderState))
              && (!stranger && sig.signedDocumentRef != "" ==>
                    |own| > 2 && own[2].call == ToPort(Content(sig.signedDocumentRef, OnBehalf(job.callerSub, token))))
  {
    ValidateTells(wired, sigID, caller, token, s);
    ReadingRun(wired, ValidateOp(sigID, caller, token), s);
    hide Drive, Since, Extends, OthersLeave, StoringCalls;
  }

  /** A validation is accepted exactly when its seven calls are answered: the record and its job are read, the record's
      document is fetched on the owner's behalf, validated under the name of its own form, the report normalized, stored
      under the record's id and linked to it. The answer is the record that was read, the normalized answer, and the id
      of that report. */
  lemma ValidateAnswers(wired: bool, sigID: string, caller: string, token: string, s: Setting)
    ensures var (t, out) := Drive(wired, ValidateOp(sigID, caller, token), s);
            var own := Since(s, t);
            && (out.Validated? <==> |own| == 7 && own[6].reply.Ack?)
            && (out.Validated? ==>
                  && own[0].reply == SignatureRow(out.sig) && own[1].reply.JobRow?
                  && own[4].reply == Normalized(out.res.answer) && own[5].reply == NewId(out.res.reportID)
                  && ValidatedBy(sigID, out.sig, own[1].reply.job, token, out.res, own))
  {
    ValidateTells(wired, sigID, caller, token, s);
    hide Drive, Since, Extends;
    var (t, out) := Drive(wired, ValidateOp(sigID, caller, token), s);
    var own := Since(s, t);
    if |own| > 2 {
      SameElements(own);
    }
  }

  lemma SameElements(own: seq<Exchange>)
    requires |own| > 2
    ensures forall i :: 0 <= i < |own[2..]| ==> own[2..][i] == own[i + 2]
    ensures |own| > 5 ==> own[2..][3..] == own[5..]
  {
  }

  predicate ValidatedBy(sigID: string, sig: Signature, job: Job, token: string, res: ValidationResult,
                        own: seq<Exchange>)
    requires |own| == 7
  {
    && own[0].call == ToStore(GetSignature(sigID)) && own[1].call == ToStore(GetJob(sig.jobID))
    && own[2].call == ToPort(Content(sig.signedDocumentRef, OnBehalf(job.callerSub, token))) && own[2].reply.Blob?
    && own[3].call == ToPort(Validate(own[2].reply.bytes, if job.sigFormat == PAdES then DocumentPdf
                                                          else ContainerAsice))
    && own[3].reply.Report? && own[4].call == ToPort(NormalizeReport(own[3].reply.report))
    && own[5].call.ToStore? && own[5].call.s.StoreReport? && ReportFits(own[5].call.s.report, sigID, res.answer)
    && own[6].call == ToStore(RecordValidation(sigID, res.reportID, res.answer.pass, res.answer.level))
  }
}
