/** The invariant of every reachable state, kept by every step and so by every run. */
module Steps {
  import opened Protocol
  import opened StoreSpec
  import opened Choreography
  import opened Solo
  import opened LeaseTheory
  import opened Worlds
  import opened Invariants
  import opened Documents
  import opened Reachable

  // ---- a PAdES signing is recorded at most once ----

  predicate RecordingPdf(op: Op) {
    Recording(op) && op.job.sigFormat == PAdES
  }

  /** When the provider echoes, an accepted PDF is on its way to one record, or is in one record, never in two. */
  predicate PdfOnce(w: World) {
    w.env.echoes ==> PdfsApart(w)
  }

  predicate PdfsApart(w: World) {
    PassesOnce(w) && PassNotRecorded(w) && RecordsOnce(w)
  }

  predicate PassesOnce(w: World) {
    forall i, k ::
      i in w.ops && k in w.ops && RecordingPdf(w.ops[i]) && RecordingPdf(w.ops[k]) ==>
        w.ops[i].job.jobID == w.ops[k].job.jobID ==> i == k
  }

  predicate PassNotRecorded(w: World) {
    forall i, s :: i in w.ops && s in w.env.store.sigs && RecordingPdf(w.ops[i]) ==>
      w.env.store.sigs[s].jobID != w.ops[i].job.jobID
  }

  predicate RecordsOnce(w: World) {
    forall s, t ::
      s in w.env.store.sigs && t in w.env.store.sigs && w.env.store.sigs[s].sigFormat == PAdES ==>
        w.env.store.sigs[s].jobID == w.env.store.sigs[t].jobID ==> s == t
  }

  /** The CAS lets a job's PDF in once: afterwards its own commit is a signing since its base. */
  lemma AcceptedOnlyOnce(e: Env, parentID: string, j: string)
    requires DocsOK(e) && e.echoes && IsCurrent(e, parentID)
    requires j in e.prepared && e.prepared[j].file.Some? && e.prepared[j].docID == parentID
    ensures !PdfAccepted(e, j)
  {
    BaseIsCurrent(e, parentID, j);
    forall root | root in e.chains ensures !OnChain(e, PdfCommit(j), root) {
      assert ChainOK(e, root);
      forall v: nat | v < |e.chains[root].commits| ensures e.chains[root].commits[v] != PdfCommit(j) {
        assert CommitOK(e, root, v);
      }
    }
  }

  /** While a job's PDF has not been accepted, nothing of it is recorded or about to be. */
  lemma NothingBeforeAcceptance(w: World, j: string)
    requires EnvOK(w.env) && OpsOK(w) && !PdfAccepted(w.env, j)
    ensures forall i :: i in w.ops && RecordingPdf(w.ops[i]) ==> w.ops[i].job.jobID != j
    ensures forall s :: s in w.env.store.sigs && w.env.store.sigs[s].sigFormat == PAdES ==>
              w.env.store.sigs[s].jobID != j
  {
    forall i | i in w.ops && RecordingPdf(w.ops[i]) ensures w.ops[i].job.jobID != j {
      assert OpOK(w, w.ops[i]);
    }
    forall s | s in w.env.store.sigs && w.env.store.sigs[s].sigFormat == PAdES
      ensures w.env.store.sigs[s].jobID != j
    {
      assert SignatureOK(w.env, s);
    }
  }

  /** The only way to start recording a PDF is to have just had it accepted. */
  lemma WhoStartsRecording(w: World, op: Op, a: Answering)
    requires OpOK(w, op) && Answerable(w.env, Request(op), a)
    requires RecordingPdf(Resume(w.wired, op, ReplyTo(w.env, Request(op), a)))
    ensures op.InFinalize? && op.f.FStore? && op.job == Resume(w.wired, op, ReplyTo(w.env, Request(op), a)).job
    ensures IsCurrent(w.env, op.f.docID) && IsPdfOf(w.env, op.job, op.f.signed) && RightDoc(w.env, op.job, op.f.docID)
  {
  }

  lemma SigFormatsAgree(w: World, job: Job)
    requires EnvOK(w.env) && Known(w.env, job)
    ensures forall s :: s in w.env.store.sigs && w.env.store.sigs[s].jobID == job.jobID ==>
              w.env.store.sigs[s].sigFormat == job.sigFormat
  {
    forall s | s in w.env.store.sigs && w.env.store.sigs[s].jobID == job.jobID
      ensures w.env.store.sigs[s].sigFormat == job.sigFormat
    {
      assert SignatureOK(w.env, s);
    }
  }

  lemma ServeParts(w: World, id: nat, a: Answering)
    requires Enabled(w, Serve(id, a))
    ensures var op, v := w.ops[id], Next(w, Serve(id, a));
            var next := Resume(w.wired, op, ReplyTo(w.env, Request(op), a));
            && !op.Done? && After(w, op, a, v)
            && v.ops == if next.Done? then w.ops - {id} else w.ops[id := next]
  {
    hide Resume, Request, Effect, Note, ReplyTo, Answerable;
  }

  /** A finished call of `op`, which becomes `next`, keeps PDF records apart. */
  lemma PdfOnceKept(w: World, id: nat, a: Answering, v: World, next: Op)
    requires EnvOK(w.env) && w.env.echoes && OpsOK(w) && PdfsApart(w) && id in w.ops && After(w, w.ops[id], a, v)
    requires next == Resume(w.wired, w.ops[id], ReplyTo(w.env, Request(w.ops[id]), a))
    requires v.ops == if next.Done? then w.ops - {id} else w.ops[id := next]
    ensures PdfsApart(v)
  {
    PdfStepHolds(w, id, a, v, next);
    hide After, Resume, Request, ReplyTo, EnvOK, OpsOK, PdfStep, PdfsApart;
    PdfOnceFrame(w, id, a, v, next);
  }

  lemma PdfStepHolds(w: World, id: nat, a: Answering, v: World, next: Op)
    requires EnvOK(w.env) && w.env.echoes && OpsOK(w) && id in w.ops && After(w, w.ops[id], a, v)
    requires next == Resume(w.wired, w.ops[id], ReplyTo(w.env, Request(w.ops[id]), a))
    requires v.ops == if next.Done? then w.ops - {id} else w.ops[id := next]
    ensures PdfStep(w, id, a, v, next)
  {
    var op := w.ops[id];
    assert OpOK(w, op);
    hide After, Resume, Request, ReplyTo, EnvOK, OpOK, OpsOK, Recording, Effective, StartsFresh, RecordsFresh;
    AfterIsAnswerable(w, op, a, v);
    SigsAfter(w, op, a, v);
    StartIsFresh(w, op, a, next);
    RecordIsFresh(w, op, a);
    if Recording(op) {
      RecordingEnds(w.wired, op, ReplyTo(w.env, Request(op), a));
    }
  }

  lemma StartIsFresh(w: World, op: Op, a: Answering, next: Op)
    requires EnvOK(w.env) && w.env.echoes && OpsOK(w) && OpOK(w, op) && Answerable(w.env, Request(op), a)
    requires next == Resume(w.wired, op, ReplyTo(w.env, Request(op), a))
    ensures StartsFresh(w, op, next)
  {
    hide EnvOK, OpsOK, OpOK, Resume, Request, ReplyTo, Answerable, Recording;
    if RecordingPdf(next) {
      PdfStarts(w, op, a, next);
    }
  }

  lemma RecordIsFresh(w: World, op: Op, a: Answering)
    requires EnvOK(w.env) && OpsOK(w) && OpOK(w, op) && Answerable(w.env, Request(op), a)
    ensures RecordsFresh(w, op, a)
  {
    hide EnvOK, OpsOK, OpOK, Request, Answerable, FreshId, Effective;
    if Recording(op) && Effective(a) {
      SameJobSameFormat(w, op);
      AnswerableStores(w.env, op, a);
      FreshIsNew(w.env.store, a.newID);
    }
  }

  lemma FreshIsNew(s: StoreState, id: string)
    requires FreshId(s, id)
    ensures id !in s.sigs
  {
  }

  lemma PdfStarts(w: World, op: Op, a: Answering, next: Op)
    requires EnvOK(w.env) && w.env.echoes && OpsOK(w) && OpOK(w, op) && Answerable(w.env, Request(op), a)
    requires next == Resume(w.wired, op, ReplyTo(w.env, Request(op), a)) && RecordingPdf(next)
    ensures !Recording(op)
    ensures forall i :: i in w.ops && RecordingPdf(w.ops[i]) ==> w.ops[i].job.jobID != next.job.jobID
    ensures forall s :: s in w.env.store.sigs ==> w.env.store.sigs[s].jobID != next.job.jobID
  {
    WhoStartsRecording(w, op, a);
    hide Resume, Request, ReplyTo, Answerable, DocsOK, RowsOK;
    AcceptedOnlyOnce(w.env, op.f.docID, op.job.jobID);
    NothingBeforeAcceptance(w, op.job.jobID);
    SigFormatsAgree(w, op.job);
  }

  lemma RecordingEnds(wired: bool, op: Op, r: Reply)
    requires !op.Done? && Recording(op)
    ensures !Recording(Resume(wired, op, r))
  {
  }

  lemma SameJobSameFormat(w: World, op: Op)
    requires EnvOK(w.env) && OpsOK(w) && OpOK(w, op) && Recording(op)
    ensures forall i :: i in w.ops && RecordingPdf(w.ops[i]) && w.ops[i].job.jobID == op.job.jobID ==>
              op.job.sigFormat == PAdES
    ensures forall s :: s in w.env.store.sigs && w.env.store.sigs[s].jobID == op.job.jobID ==>
              w.env.store.sigs[s].sigFormat == op.job.sigFormat
  {
    SigFormatsAgree(w, op.job);
    hide EnvOK;
    forall i | i in w.ops && RecordingPdf(w.ops[i]) && w.ops[i].job.jobID == op.job.jobID
      ensures op.job.sigFormat == PAdES
    {
      assert OpOK(w, w.ops[i]);
    }
  }

  /** An operation that starts recording a PDF is the first to. */
  predicate StartsFresh(w: World, op: Op, next: Op) {
    RecordingPdf(next) ==>
      && !Recording(op)
      && (forall i :: i in w.ops && RecordingPdf(w.ops[i]) ==> w.ops[i].job.jobID != next.job.jobID)
      && (forall s :: s in w.env.store.sigs ==> w.env.store.sigs[s].jobID != next.job.jobID)
  }

  /** An operation that records does so under a new id, and in its job's one format. */
  predicate RecordsFresh(w: World, op: Op, a: Answering) {
    Recording(op) && Effective(a) ==>
      && a.newID !in w.env.store.sigs
      && (forall i :: i in w.ops && RecordingPdf(w.ops[i]) && w.ops[i].job.jobID == op.job.jobID ==>
            op.job.sigFormat == PAdES)
      && (forall s :: s in w.env.store.sigs && w.env.store.sigs[s].jobID == op.job.jobID ==>
            w.env.store.sigs[s].sigFormat == op.job.sigFormat)
  }

  /** What PdfOnceFrame needs to know of the step. */
  predicate PdfStep(w: World, id: nat, a: Answering, v: World, next: Op)
    requires id in w.ops
  {
    var op := w.ops[id];
    && v.ops == (if next.Done? then w.ops - {id} else w.ops[id := next])
    && StartsFresh(w, op, next) && RecordsFresh(w, op, a)
    && v.env.store.sigs == (
         if Recording(op) && Effective(a) then
           w.env.store.sigs[a.newID := SignatureOf(a.newID, SignatureInputOf(op.job, op.f.ref))]
         else if Links(op) && Effective(a) && op.v.sigID in w.env.store.sigs then
           w.env.store.sigs[op.v.sigID := Link(w.env.store.sigs[op.v.sigID],
             op.at.reportID, op.at.answer.pass, op.at.answer.level)]
         else w.env.store.sigs)
    && (Recording(op) ==> !Recording(next))
  }

  lemma PdfOnceFrame(w: World, id: nat, a: Answering, v: World, next: Op)
    requires id in w.ops && PdfsApart(w) && PdfStep(w, id, a, v, next)
    ensures PdfsApart(v)
  {
    PassesStayOnce(w, id, a, v, next);
    PassStaysUnrecorded(w, id, a, v, next);
    RecordsStayOnce(w, id, a, v, next);
    hide PdfStep, PassesOnce, PassNotRecorded, RecordsOnce;
  }

  lemma PassesStayOnce(w: World, id: nat, a: Answering, v: World, next: Op)
    requires id in w.ops && PassesOnce(w) && PdfStep(w, id, a, v, next)
    ensures PassesOnce(v)
  {
    hide Links, Recording, Effective;
  }

  lemma PassStaysUnrecorded(w: World, id: nat, a: Answering, v: World, next: Op)
    requires id in w.ops && PassesOnce(w) && PassNotRecorded(w) && PdfStep(w, id, a, v, next)
    ensures PassNotRecorded(v)
  {
  }

  lemma RecordsStayOnce(w: World, id: nat, a: Answering, v: World, next: Op)
    requires id in w.ops && PassNotRecorded(w) && RecordsOnce(w) && PdfStep(w, id, a, v, next)
    ensures RecordsOnce(v)
  {
  }

  // ---- the lock map is the history of lock calls ----

  predicate LocksOK(w: World) {
    && Ordered(w.hist.calls) && NotAfter(w.hist.calls, w.env.now)
    && w.env.store.locks == Locks(w.hist.calls)
    && forall i :: 0 <= i < |w.hist.calls| && w.hist.calls[i].call.AcquireChainLock? ==>
         w.hist.calls[i].call.ttlSeconds == SIGNING_LOCK_TTL_SECONDS
  }

  lemma ApplyOnLocks(s: StoreState, now: int, newID: string, call: StoreCall)
    ensures Apply(s, now, newID, call).0.locks == Touch(s.locks, Timed(now, call))
  {
  }

  lemma EveryAcquireUsesTheTtl(op: Op)
    requires !op.Done? && Request(op).ToStore? && Request(op).s.AcquireChainLock?
    ensures Request(op).s.ttlSeconds == SIGNING_LOCK_TTL_SECONDS
  {
  }

  lemma LocksKept(w: World, op: Op, a: Answering, v: World)
    requires LocksOK(w) && !op.Done? && After(w, op, a, v)
    ensures LocksOK(v)
  {
    EffectOnStore(w.env, Request(op), a);
    if Effective(a) && Request(op).ToStore? {
      var call := Request(op).s;
      ApplyOnLocks(w.env.store, w.env.now, a.newID, call);
      if call.AcquireChainLock? {
        EveryAcquireUsesTheTtl(op);
      }
      hide Request, Resume, Effect, ReplyTo, Answerable, Apply;
      assert v.hist.calls == w.hist.calls + [Timed(w.env.now, call)];
      assert v.hist.calls[..|w.hist.calls|] == w.hist.calls;
    } else {
      hide Request, Resume, Effect, ReplyTo, Answerable, Apply;
      assert v.hist.calls == w.hist.calls;
    }
  }

  // ---- everything together ----

  predicate WorldOK(w: World) {
    EnvOK(w.env) && OpsOK(w) && EvidenceOK(w) && LinksOK(w) && PdfOnce(w) && LocksOK(w)
  }

  lemma InitialOK(wired: bool, echoes: bool, now: int)
    ensures WorldOK(Initial(wired, echoes, now))
  {
  }

  lemma HistoryGrows(w: World, op: Op, a: Answering, v: World)
    requires EvidenceOK(w) && !op.Done? && After(w, op, a, v)
    ensures forall id :: id in w.hist.evidence ==> id in v.hist.evidence && v.hist.evidence[id] == w.hist.evidence[id]
    ensures forall j :: j in w.hist.marks ==> j in v.hist.marks
    ensures EvidenceOK(v)
  {
    WhoWrites(op);
    EffectOnStore(w.env, Request(op), a);
    hide Resume, Effect, ReplyTo;
  }

  lemma OpIsUnderWay(w: World, op: Op)
    requires OpOK(w, op)
    ensures !op.Done?
  {
  }

  /** What a served call leaves well-formed and grown. */
  lemma ServeGrows(w: World, op: Op, a: Answering, v: World)
    requires EnvOK(w.env) && EvidenceOK(w) && OpOK(w, op) && After(w, op, a, v)
    ensures EnvOK(v.env) && EvidenceOK(v) && WorldGrows(w, v)
  {
    hide EnvOK, EvidenceOK, Grows, OpOK, Request, Effect, Note, Resume, ReplyTo, Answerable, CallOK;
    OpIsUnderWay(w, op);
    OpMakesGoodCalls(w, op);
    CallKeeps(w, Request(op), a);
    HistoryGrows(w, op, a, v);
  }

  lemma ServeOps(w: World, id: nat, a: Answering, v: World, next: Op)
    requires EnvOK(w.env) && EnvOK(v.env) && OpsOK(w) && WorldGrows(w, v)
    requires id in w.ops && !w.ops[id].Done? && After(w, w.ops[id], a, v)
    requires next == Resume(w.wired, w.ops[id], ReplyTo(w.env, Request(w.ops[id]), a))
    requires v.ops == if next.Done? then w.ops - {id} else w.ops[id := next]
    ensures OpsOK(v)
  {
    hide EnvOK, OpOK, WorldGrows, After, Resume, ReplyTo, Request;
    OpResumes(w, w.ops[id], a, v);
    forall i | i in v.ops ensures OpOK(v, v.ops[i]) {
      if i != id {
        OpStays(w, v, w.ops[i]);
      }
    }
  }

  lemma ServeKeeps(w: World, id: nat, a: Answering)
    requires WorldOK(w) && Enabled(w, Serve(id, a))
    ensures WorldOK(Next(w, Serve(id, a))) && WorldGrows(w, Next(w, Serve(id, a)))
  {
    var op, v := w.ops[id], Next(w, Serve(id, a));
    var next := Resume(w.wired, op, ReplyTo(w.env, Request(op), a));
    ServeParts(w, id, a);
    assert OpOK(w, op);
    hide Next, Enabled, Resume, Request, ReplyTo, After, OpOK, OpsOK, EnvOK, EvidenceOK, LinksOK, PdfsApart, LocksOK;
    ServeGrows(w, op, a, v);
    ServeOps(w, id, a, v, next);
    hide Grows;
    LinksKept(w, op, a, v);
    if v.env.echoes {
      PdfOnceKept(w, id, a, v, next);
    }
    LocksKept(w, op, a, v);
  }

  lemma StartKeeps(w: World, id: nat, op: Op)
    requires WorldOK(w) && Enabled(w, Start(id, op))
    ensures WorldOK(Next(w, Start(id, op))) && WorldGrows(w, Next(w, Start(id, op)))
  {
    var v := Next(w, Start(id, op));
    assert OpOK(v, op) && !Recording(op);
    hide Next, Enabled, EnvOK, LocksOK, Recording, Startable;
    SameEnv(w, v);
  }

  /** Nothing but the operations in flight changed, and those only by one that knows nothing yet. */
  lemma SameEnv(w: World, v: World)
    requires WorldOK(w) && v.wired == w.wired && v.env == w.env
    requires v.hist == w.hist || exists op :: v.hist == Stopped(w.hist, op)
    requires forall i :: i in v.ops ==>
        (i in w.ops && v.ops[i] == w.ops[i]) || (OpOK(v, v.ops[i]) && !Recording(v.ops[i]))
    ensures WorldOK(v) && WorldGrows(w, v)
  {
    GrowsRefl(w.env);
    hide EnvOK, Grows, OpOK, Recording, LinkOK, LinksOK;
    assert WorldGrows(w, v);
    assert EvidenceOK(v) && LocksOK(v);
    hide EvidenceOK, LocksOK;
    forall i | i in v.ops ensures OpOK(v, v.ops[i]) {
      if i in w.ops && v.ops[i] == w.ops[i] {
        OpStays(w, v, w.ops[i]);
      }
    }
    SameLinksAll(w, v);
    FewerPdfs(w, v);
    hide PdfOnce, WorldGrows, Stopped;
  }

  lemma FewerPdfs(w: World, v: World)
    requires PdfOnce(w) && v.env == w.env
    requires forall i :: i in v.ops ==> (i in w.ops && v.ops[i] == w.ops[i]) || !Recording(v.ops[i])
    ensures PdfOnce(v)
  {
    hide Recording;
    assert forall i :: i in v.ops && RecordingPdf(v.ops[i]) ==> i in w.ops && v.ops[i] == w.ops[i];
  }

  lemma SameLinksAll(w: World, v: World)
    requires LinksOK(w) && WorldGrows(w, v) && v.env.store.sigs == w.env.store.sigs && v.hist.links == w.hist.links
    ensures LinksOK(v)
  {
    hide LinkOK, WorldGrows;
    forall id | id in v.env.store.sigs ensures LinkOK(v, id) {
      assert LinkOK(w, id);
      LinkStays(w, v, id);
    }
  }

  /** The environment changed by itself: the rows and the history did not. */
  lemma SameRows(w: World, v: World)
    requires WorldOK(w) && v.wired == w.wired && v.ops == w.ops && v.hist == w.hist
    requires v.env.store == w.env.store && v.env.now >= w.env.now && EnvOK(v.env) && Grows(w.env, v.env)
    ensures WorldOK(v) && WorldGrows(w, v)
  {
    assert v.env.echoes == w.env.echoes;
    assert PdfOnce(v) && EvidenceOK(v) && LocksOK(v);
    hide EnvOK, Grows, OpOK, LinksOK, PdfOnce, EvidenceOK, LocksOK;
    forall i | i in v.ops ensures OpOK(v, v.ops[i]) {
      OpStays(w, v, w.ops[i]);
    }
    SameLinksAll(w, v);
  }

  lemma PassKeeps(e: Env, elapsed: nat)
    requires EnvOK(e)
    ensures EnvOK(e.(now := e.now + elapsed)) && Grows(e, e.(now := e.now + elapsed))
  {
    SameDocs(e, e.(now := e.now + elapsed));
    RowsStay(e, e.(now := e.now + elapsed));
  }

  /** Every step, of whoever, keeps the invariant and spoils nothing anybody knows. */
  lemma StepKeeps(w: World, l: Label)
    requires WorldOK(w) && Enabled(w, l)
    ensures WorldOK(Next(w, l)) && WorldGrows(w, Next(w, l))
  {
    match l
    case Serve(id, a) =>
      hide *;
      ServeKeeps(w, id, a);
    case Start(id, op) =>
      hide *;
      StartKeeps(w, id, op);
    case Crash(id) =>
      hide WorldOK, Stopped, OpOK;
      SameEnv(w, Next(w, l));
    case Pass(elapsed) =>
      PassKeeps(w.env, elapsed);
      hide EnvOK, Grows, WorldOK;
      SameRows(w, Next(w, l));
    case Upload(root, signed, container) =>
      UploadKeeps(w.env, root, signed, container);
      hide EnvOK, Grows, WorldOK;
      SameRows(w, Next(w, l));
    case Refresh(root) =>
      RefreshKeeps(w.env, root);
      hide EnvOK, Grows, WorldOK;
      SameRows(w, Next(w, l));
  }

  lemma WorldGrowsRefl(w: World)
    requires WorldOK(w)
    ensures WorldGrows(w, w)
  {
    GrowsRefl(w.env);
    hide Grows;
  }

  lemma WorldGrowsTrans(w: World, v: World, u: World)
    requires WorldGrows(w, v) && WorldGrows(v, u)
    ensures WorldGrows(w, u)
  {
    GrowsTrans(w.env, v.env, u.env);
    hide Grows;
  }

  /** Every run. */
  lemma {:induction false} RunKeeps(w: World, ls: seq<Label>)
    requires WorldOK(w) && Legal(w, ls)
    ensures WorldOK(Play(w, ls)) && WorldGrows(w, Play(w, ls))
    decreases |ls|
  {
    hide Enabled, Next, WorldOK, Grows;
    if |ls| == 0 {
      WorldGrowsRefl(w);
    } else {
      StepKeeps(w, ls[0]);
      RunKeeps(Next(w, ls[0]), ls[1..]);
      WorldGrowsTrans(w, Next(w, ls[0]), Play(w, ls));
    }
  }
}
