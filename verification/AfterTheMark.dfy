/** Everything after the COMPLETED mark is best-effort: it cannot change what was durably decided. */
module BestEffort {
  import opened Protocol
  import opened StoreSpec
  import opened Choreography
  import opened Solo
  import opened CallByCall

  /** What a pass that has marked its job may still ask: tell the envelope service, and validate. */
  predicate QuietCall(sigID: string, call: Call) {
    match call
    case ToPort(p) => p.MarkSlotSigned? || p.Content? || p.Validate? || p.NormalizeReport?
    case ToStore(s) => s.StoreReport? || (s.RecordValidation? && s.signatureID == sigID)
  }

  predicate Quiet(job: Job, token: string, ref: string, sigID: string, op: Op) {
    var v := AtSigningValidation(job, token, ref, sigID);
    match op
    case InFinalize(j, t, f) => j == job && t == token && f.FNotify? && f.ref == ref && f.sigID == sigID
    case InValidation(u, _) => u == v
    case Done(out) => out.Signing? && out.status.(validation := None) == CompletedStatus(job, ref, sigID)
    case _ => false
  }

  lemma QuietStays(wired: bool, job: Job, token: string, ref: string, sigID: string, op: Op, r: Reply)
    requires Quiet(job, token, ref, sigID, op) && !op.Done?
    ensures QuietCall(sigID, Request(op)) && Quiet(job, token, ref, sigID, Resume(wired, op, r))
  {
  }

  function IsQuiet(job: Job, token: string, ref: string, sigID: string): Op -> bool {
    o => Quiet(job, token, ref, sigID, o)
  }

  function IsQuietCall(sigID: string): Call -> bool {
    c => QuietCall(sigID, c)
  }

  lemma QuietIsPreserved(wired: bool, job: Job, token: string, ref: string, sigID: string)
    ensures Preserved(wired, IsQuiet(job, token, ref, sigID), IsQuietCall(sigID))
  {
    forall o, r ensures Preserves(wired, IsQuiet(job, token, ref, sigID), IsQuietCall(sigID), o, r) {
      QuietPreserves(wired, job, token, ref, sigID, o, r);
    }
  }

  lemma QuietPreserves(wired: bool, job: Job, token: string, ref: string, sigID: string, op: Op, r: Reply)
    ensures Preserves(wired, IsQuiet(job, token, ref, sigID), IsQuietCall(sigID), op, r)
  {
    if Quiet(job, token, ref, sigID, op) && !op.Done? {
      QuietStays(wired, job, token, ref, sigID, op, r);
    }
    hide ResumeFinalize, ResumeValidation, FinalizeCall, ValidationCall, QuietCall;
  }

  /** Once a job is marked, whatever the envelope service and the validation do, and whatever others do to the store:
      the pass answers COMPLETED with its record and document, validation apart, and makes no call that could touch a
      job, a lock, or anything of any record but this one's validation fields. */
  lemma MarkedIsDone(wired: bool, job: Job, token: string, ref: string, sigID: string, s: Setting)
    ensures var (t, out) := Drive(wired, AfterRelease(wired, job, token, ref, sigID), s);
            && out.Signing? && out.status.(validation := None) == CompletedStatus(job, ref, sigID)
            && |s.trace| <= |t.trace| && t.trace[..|s.trace|] == s.trace
            && forall i :: |s.trace| <= i < |t.trace| ==> QuietCall(sigID, t.trace[i].call)
  {
    hide Drive, Preserved, QuietCall, Exchanged;
    var op := AfterRelease(wired, job, token, ref, sigID);
    QuietIsPreserved(wired, job, token, ref, sigID);
    assert Quiet(job, token, ref, sigID, op);
    Throughout(wired, op, s, IsQuiet(job, token, ref, sigID), IsQuietCall(sigID));
    assert Quiet(job, token, ref, sigID, Done(Drive(wired, op, s).1));
  }

  // ---- the effect on the store when nobody else acts ----

  predicate Alone(script: seq<Turn>) {
    forall i :: 0 <= i < |script| ==> script[i].others == []
  }

  /** Equal but for the reports and one record's validation fields. */
  predicate SameOutcome(a: StoreState, b: StoreState, sigID: string) {
    && b.jobs == a.jobs && b.locks == a.locks
    && b.sigs.Keys == a.sigs.Keys
    && (forall id :: id in a.sigs && id != sigID ==> b.sigs[id] == a.sigs[id])
    && (sigID in a.sigs ==>
          b.sigs[sigID] == a.sigs[sigID].(validated := b.sigs[sigID].validated,
                                          validationID := b.sigs[sigID].validationID, level := b.sigs[sigID].level))
  }

  lemma QuietCallKeeps(s: Setting, call: Call, sigID: string)
    requires Alone(s.script) && QuietCall(sigID, call)
    ensures var t := Exchanged(s, call).0; SameOutcome(s.store, t.store, sigID) && Alone(t.script)
  {
  }

  lemma {:induction false} QuietRunKeeps(wired: bool, job: Job, token: string, ref: string, sigID: string, op: Op,
                                         s: Setting)
    requires Quiet(job, token, ref, sigID, op) && Alone(s.script)
    ensures SameOutcome(s.store, Drive(wired, op, s).0.store, sigID)
    decreases Rank(op)
  {
    hide Drive, Exchanged, Request, Resume, Rank, Alone, Quiet, SameOutcome;
    if op.Done? {
      DoneEnds(wired);
      assert op == Done(op.outcome);
      SameOutcomeRefl(s.store, sigID);
    } else {
      DriveStep(wired, op, s);
      var (s', r) := Exchanged(s, Request(op));
      QuietStays(wired, job, token, ref, sigID, op, r);
      QuietCallKeeps(s, Request(op), sigID);
      EveryReplyIsProgress(wired, op, r);
      QuietRunKeeps(wired, job, token, ref, sigID, Resume(wired, op, r), s');
      SameOutcomeTrans(s.store, s'.store, Drive(wired, op, s).0.store, sigID);
    }
  }

  lemma SameOutcomeRefl(a: StoreState, sigID: string)
    ensures SameOutcome(a, a, sigID)
  {
  }

  lemma SameOutcomeTrans(a: StoreState, b: StoreState, c: StoreState, sigID: string)
    requires SameOutcome(a, b, sigID) && SameOutcome(b, c, sigID)
    ensures SameOutcome(a, c, sigID)
  {
  }

  /** What follows the mark and its release decides nothing: started on the same store, it ends with the same jobs,
      locks and records, apart from that record's validation, and with the same answer, apart from its validation. */
  lemma TailDecidesNothing(wired: bool, job: Job, token: string, ref: string, sigID: string, s: Setting, u: Setting)
    requires s.store == u.store && Alone(s.script) && Alone(u.script)
    ensures var op := AfterRelease(wired, job, token, ref, sigID);
            var (t, out) := Drive(wired, op, s);
            var (t', out') := Drive(wired, op, u);
            && SameOutcome(t.store, t'.store, sigID)
            && out.Signing? && out'.Signing? && out.status.(validation := None) == out'.status.(validation := None)
  {
    var op := AfterRelease(wired, job, token, ref, sigID);
    assert Quiet(job, token, ref, sigID, op);
    MarkedIsDone(wired, job, token, ref, sigID, s);
    MarkedIsDone(wired, job, token, ref, sigID, u);
    QuietRunKeeps(wired, job, token, ref, sigID, op, s);
    QuietRunKeeps(wired, job, token, ref, sigID, op, u);
    hide Drive;
  }

  /** An operation after n of its calls, or at its end if that comes first. */
  function Advance(wired: bool, op: Op, s: Setting, n: nat): (Op, Setting)
    decreases n
  {
    if n == 0 || op.Done? then (op, s)
    else
      var (s', r) := Exchanged(s, Request(op));
      Advance(wired, Resume(wired, op, r), s', n - 1)
  }

  lemma {:induction false} AdvanceLeadsOn(wired: bool, op: Op, s: Setting, n: nat)
    ensures var (op', s') := Advance(wired, op, s, n); Drive(wired, op, s) == Drive(wired, op', s')
    decreases n
  {
    hide Drive, Exchanged, Request, Resume;
    if n > 0 && !op.Done? {
      DriveStep(wired, op, s);
      var (s', r) := Exchanged(s, Request(op));
      AdvanceLeadsOn(wired, Resume(wired, op, r), s', n - 1);
    }
  }

  lemma SameTurn(s: Setting, u: Setting, call: Call)
    requires s.store == u.store && s.now == u.now && |s.script| > 0 && |u.script| > 0 && s.script[0] == u.script[0]
    ensures var ((s', r), (u', r')) := (Exchanged(s, call), Exchanged(u, call));
            && r == r' && s'.store == u'.store && s'.now == u'.now
            && s'.script == s.script[1..] && u'.script == u.script[1..]
  {
    hide Answered;
  }

  /** The same turns take it the same way. */
  lemma {:induction false} AdvanceTogether(wired: bool, op: Op, s: Setting, u: Setting, n: nat)
    requires s.store == u.store && s.now == u.now
    requires n <= |s.script| && n <= |u.script| && s.script[..n] == u.script[..n]
    ensures var ((op', s'), (op'', u')) := (Advance(wired, op, s, n), Advance(wired, op, u, n));
            && op' == op'' && s'.store == u'.store
            && (!op'.Done? ==> s'.script == s.script[n..] && u'.script == u.script[n..])
    decreases n
  {
    hide Exchanged, Request, Resume;
    if n > 0 && !op.Done? {
      assert s.script[..n][0] == u.script[..n][0];
      SameTurn(s, u, Request(op));
      var (s', r) := Exchanged(s, Request(op));
      var u' := Exchanged(u, Request(op)).0;
      assert s'.script[..n - 1] == s.script[..n][1..] && u'.script[..n - 1] == u.script[..n][1..];
      AdvanceTogether(wired, Resume(wired, op, r), s', u', n - 1);
      assert s'.script[n - 1..] == s.script[n..] && u'.script[n - 1..] == u.script[n..];
    } else if n == 0 {
      assert s.script[0..] == s.script && u.script[0..] == u.script;
    }
  }

  /** Two whole passes (`op` is FinalizeOp, or the poll around it, or anything that gets there) with the same answers
      up to the mark and its release, n calls in all, among whatever other clients do meanwhile: however differently
      the notification and the validation then go, while no other client writes to the store, they end with the same
      jobs, locks and records, apart from that record's validation, and with the same answer, apart from its
      validation. */
  lemma BestEffortDecidesNothing(wired: bool, op: Op, s: Setting, u: Setting, n: nat,
                                 job: Job, token: string, ref: string, sigID: string)
    requires s.store == u.store && s.now == u.now
    requires n <= |s.script| && n <= |u.script| && s.script[..n] == u.script[..n]
    requires Alone(s.script[n..]) && Alone(u.script[n..])
    requires Advance(wired, op, s, n).0 == AfterRelease(wired, job, token, ref, sigID)
    ensures var (t, out) := Drive(wired, op, s);
            var (t', out') := Drive(wired, op, u);
            && SameOutcome(t.store, t'.store, sigID)
            && out.Signing? && out'.Signing? && out.status.(validation := None) == out'.status.(validation := None)
  {
    assert !AfterRelease(wired, job, token, ref, sigID).Done?;
    hide Drive, Advance, Alone, SameOutcome, AfterRelease;
    AdvanceLeadsOn(wired, op, s, n);
    AdvanceLeadsOn(wired, op, u, n);
    AdvanceTogether(wired, op, s, u, n);
    TailDecidesNothing(wired, job, token, ref, sigID, Advance(wired, op, s, n).1, Advance(wired, op, u, n).1);
  }

  // ---- the slot notification ----

  /** The envelope service is told at most twice, with the same message, and not again once it has accepted. */
  lemma NotifiedAtMostTwice(job: Job, token: string, ref: string, sigID: string, s: Setting)
    ensures var call := ToPort(MarkSlotSigned(job.envelopeID, job.slotID, sigID, ref, job.jobID));
            Drive(true, AfterRelease(true, job, token, ref, sigID), s) ==
            Drive(true, AfterNotify(job, token, ref, sigID),
                  Repeat(s, call, if ReplyAt(s.script, 0).Ack? then 1 else 2))
  {
    var call := ToPort(MarkSlotSigned(job.envelopeID, job.slotID, sigID, ref, job.jobID));
    var s1 := Exchanged(s, call).0;
    RepeatOnce(s, call);
    ExchangedTrace(s, call);
    hide Drive, Exchanged, Repeat;
    NotifyStep(job, token, ref, sigID, 1, s);
    if !ReplyAt(s.script, 0).Ack? {
      NotifyStep(job, token, ref, sigID, 2, s1);
      RepeatOnce(s1, call);
    }
  }

  lemma RepeatOnce(s: Setting, call: Call)
    ensures Repeat(s, call, 1) == Exchanged(s, call).0
    ensures Repeat(s, call, 2) == Repeat(Exchanged(s, call).0, call, 1)
  {
    hide Exchanged;
    assert Repeat(Exchanged(s, call).0, call, 0) == Exchanged(s, call).0;
  }

  lemma NotifyStep(job: Job, token: string, ref: string, sigID: string, attempt: nat, s: Setting)
    ensures var call := ToPort(MarkSlotSigned(job.envelopeID, job.slotID, sigID, ref, job.jobID));
            var (s', r) := Exchanged(s, call);
            Drive(true, InFinalize(job, token, FNotify(ref, sigID, attempt)), s) ==
            Drive(true, if r.Ack? || attempt >= NOTIFY_ATTEMPTS then AfterNotify(job, token, ref, sigID)
                        else InFinalize(job, token, FNotify(ref, sigID, attempt + 1)), s')
  {
    DriveStep(true, InFinalize(job, token, FNotify(ref, sigID, attempt)), s);
    hide Drive, Exchanged;
  }

  // ---- ErrChainAdvanced ----

  /** Once its artifact is stored, a pass never ends with ErrChainAdvanced. */
  predicate Stored(op: Op) {
    match op
    case InFinalize(_, _, f) => f.FInsert? || f.FMark? || f.FRelease? || f.FNotify?
    case InValidation(v, _) => v.asker.AtSigning?
    case Done(out) => out != Rejected(ErrChainAdvanced)
    case _ => false
  }

  lemma StoredStays(wired: bool, op: Op, r: Reply)
    requires Stored(op) && !op.Done?
    ensures Stored(Resume(wired, op, r))
  {
    match op
    case InFinalize(job, token, f) => StoredFinalizes(wired, job, token, f, r);
    case InValidation(_, _) => hide ResumeFinalize;
  }

  lemma StoredFinalizes(wired: bool, job: Job, token: string, f: Finalizing, r: Reply)
    requires Stored(InFinalize(job, token, f))
    ensures Stored(ResumeFinalize(wired, job, token, f, r))
  {
  }

  function IsStored(): Op -> bool {
    o => Stored(o)
  }

  function AnyCall(): Call -> bool {
    c => true
  }

  lemma StoredIsPreserved(wired: bool)
    ensures Preserved(wired, IsStored(), AnyCall())
  {
    forall o, r ensures Preserves(wired, IsStored(), AnyCall(), o, r) {
      if Stored(o) && !o.Done? {
        StoredStays(wired, o, r);
      }
    }
  }

  lemma StoredNeverChainAdvanced(wired: bool, op: Op, s: Setting)
    requires Stored(op)
    ensures Drive(wired, op, s).1 != Rejected(ErrChainAdvanced)
  {
    hide Drive, Preserved;
    StoredIsPreserved(wired);
    Throughout(wired, op, s, IsStored(), AnyCall());
    assert Stored(Done(Drive(wired, op, s).1));
  }

  /** A merge ends in ErrChainAdvanced exactly when all four tries were refused by the CAS; the calls made are the same
      merge over and over, one more than the refusals, four at most. */
  lemma MergeRetry(wired: bool, job: Job, token: string, docID: string, fileless: Bytes, s: Setting)
    ensures var call := MergeCall(job, token, docID, fileless);
            var n := Refusals(s.script, 4);
            var (t, out) := Drive(wired, InFinalize(job, token, FComplete(docID, fileless, 0)), s);
            && (out == Rejected(ErrChainAdvanced) <==> n == 4)
            && var made := if n == 4 then 4 else n + 1;
            && |t.trace| >= |s.trace| + made
            && (forall i :: |s.trace| <= i < |s.trace| + made ==> t.trace[i].call == call)
            && (n == 4 ==> |t.trace| == |s.trace| + 4)
  {
    hide Drive, Exchanged, Repeat, Refusals, ReplyAt, IsChainAdvanced;
    var call := MergeCall(job, token, docID, fileless);
    var n := Refusals(s.script, 4);
    MergeLoop(wired, job, token, docID, fileless, 0, s);
    if n == 4 {
      RepeatTrace(s, call, 4);
    } else {
      MergeSettled(wired, job, token, ReplyAt(s.script, n), call, n + 1, s);
    }
  }

  /** Once a try was not refused by the CAS, the pass goes on to something else than ErrChainAdvanced. */
  lemma MergeSettled(wired: bool, job: Job, token: string, reply: Reply, call: Call, m: nat, s: Setting)
    ensures var next := if reply.NewId? then InFinalize(job, token, FInsert(reply.id))
                        else Done(Rejected(Wrapped(CompleteContainer, FaultOf(reply))));
            var (t, out) := Drive(wired, next, Repeat(s, call, m));
            && out != Rejected(ErrChainAdvanced)
            && |t.trace| >= |s.trace| + m
            && forall i :: |s.trace| <= i < |s.trace| + m ==> t.trace[i].call == call
  {
    var next := if reply.NewId? then InFinalize(job, token, FInsert(reply.id))
                else Done(Rejected(Wrapped(CompleteContainer, FaultOf(reply))));
    assert Stored(next);
    hide Drive, Exchanged, Repeat, Stored;
    var u := Repeat(s, call, m);
    RepeatTrace(s, call, m);
    StoredNeverChainAdvanced(wired, next, u);
    DriveTrace(wired, next, u);
    var t := Drive(wired, next, u).0;
    assert forall i :: 0 <= i < |u.trace| ==> t.trace[i] == t.trace[..|u.trace|][i];
  }
}
