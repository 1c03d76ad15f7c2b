/** What one operation does, call by call, whatever it is answered and whatever happens around it. */
module CallByCall {
  import opened Protocol
  import opened StoreSpec
  import opened Choreography
  import opened Solo

  lemma ExchangedTrace(s: Setting, call: Call)
    ensures var (t, r) := Exchanged(s, call);
            && |t.trace| == |s.trace| + 1 && t.trace == s.trace + [t.trace[|s.trace|]]
            && t.trace[|s.trace|].call == call && t.trace[|s.trace|].reply == r && t.trace[|s.trace|].at == t.now
            && t.now >= s.now
            && t.script == Rest(s.script)
            && (call.ToPort? ==> r == ReplyAt(s.script, 0))
  {
    if |s.script| > 0 {
      TimePasses(s.store, s.now, s.script[0].others);
    }
  }

  lemma {:induction false} TimePasses(store: StoreState, now: int, others: seq<Foreign>)
    ensures Interfere(store, now, others).1 >= now
    decreases |others|
  {
    if |others| > 0 {
      TimePasses(Apply(store, now + others[0].elapsed, others[0].id, others[0].call).0, now + others[0].elapsed,
          others[1..]);
    }
  }

  // ---- what others may do to the store ----

  /** The fact outlives the time that passes, and a call of the allowed kind. */
  predicate KeepsAt(fact: (StoreState, int) -> bool, allowed: StoreCall -> bool,
                    store: StoreState, now: int, elapsed: nat, id: string, call: StoreCall) {
    fact(store, now) ==>
      && fact(store, now + elapsed)
      && (allowed(call) ==> fact(Apply(store, now + elapsed, id, call).0, now + elapsed))
  }

  ghost predicate Outlives(fact: (StoreState, int) -> bool, allowed: StoreCall -> bool) {
    forall store, now, elapsed: nat, id, call :: KeepsAt(fact, allowed, store, now, elapsed, id, call)
  }

  predicate AllAllowed(others: seq<Foreign>, allowed: StoreCall -> bool) {
    forall i :: 0 <= i < |others| ==> allowed(others[i].call)
  }

  lemma {:induction false} InterferenceKeeps(store: StoreState, now: int, others: seq<Foreign>,
                                             fact: (StoreState, int) -> bool, allowed: StoreCall -> bool)
    requires Outlives(fact, allowed) && AllAllowed(others, allowed) && fact(store, now)
    ensures var (store', now') := Interfere(store, now, others); fact(store', now')
    decreases |others|
  {
    if |others| > 0 {
      var o := others[0];
      assert KeepsAt(fact, allowed, store, now, o.elapsed, o.id, o.call);
      hide Apply, Outlives;
      InterferenceKeeps(Apply(store, now + o.elapsed, o.id, o.call).0, now + o.elapsed, others[1..], fact, allowed);
    }
  }

  /** A call among others of an allowed kind, itself of that kind if it goes to the store, keeps the fact, whatever
      becomes of the call. */
  lemma ExchangeKeeps(s: Setting, call: Call, fact: (StoreState, int) -> bool, allowed: StoreCall -> bool)
    requires Outlives(fact, allowed) && fact(s.store, s.now)
    requires |s.script| > 0 ==> AllAllowed(s.script[0].others, allowed)
    requires call.ToStore? ==> allowed(call.s)
    ensures var t := Exchanged(s, call).0; fact(t.store, t.now)
  {
    if |s.script| > 0 {
      hide Answered, Outlives, AllAllowed;
      AnswerKeeps(s.store, s.now, s.script[0], call, fact, allowed);
    }
  }

  lemma AnswerKeeps(store: StoreState, now: int, turn: Turn, call: Call,
                    fact: (StoreState, int) -> bool, allowed: StoreCall -> bool)
    requires Outlives(fact, allowed) && fact(store, now) && AllAllowed(turn.others, allowed)
    requires call.ToStore? ==> allowed(call.s)
    ensures var (store', at, _) := Answered(store, now, turn, call); fact(store', at)
  {
    hide Apply, Interfere, AllAllowed;
    InterferenceKeeps(store, now, turn.others, fact, allowed);
    var (before, then') := Interfere(store, now, turn.others);
    var some := if call.ToStore? then call.s else GetJob("");
    assert KeepsAt(fact, allowed, before, then', turn.elapsed, turn.id, some);
  }

  /** The answer a script holds for its i-th call if that is a collaborator call. */
  function ReplyAt(script: seq<Turn>, i: nat): Reply {
    if i < |script| then script[i].reply else Fail(Cancelled)
  }

  function Rest(script: seq<Turn>): seq<Turn> {
    if |script| == 0 then [] else script[1..]
  }

  /** A trace only gets longer. */
  lemma {:induction false} DriveTrace(wired: bool, op: Op, s: Setting)
    ensures var t := Drive(wired, op, s).0;
            |s.trace| <= |t.trace| && s.trace == t.trace[..|s.trace|]
    decreases Rank(op)
  {
    hide Drive, Exchanged, Request, Resume, Rank;
    if op.Done? {
      DoneEnds(wired);
      assert op == Done(op.outcome);
    } else {
      DriveStep(wired, op, s);
      ExchangedTrace(s, Request(op));
      var (s', r) := Exchanged(s, Request(op));
      EveryReplyIsProgress(wired, op, r);
      DriveTrace(wired, Resume(wired, op, r), s');
    }
  }

  // ---- a poll of a finished job ----

  /** A poll that finds its job COMPLETED or FAILED makes no other call and changes nothing. */
  lemma TerminalPollDoesNothing(wired: bool, jobID: string, wait: int, caller: string, token: string, s: Setting)
    requires |s.script| > 0 && s.script[0].delivery.Served?
    requires var store := Interfere(s.store, s.now, s.script[0].others).0;
             && jobID in store.jobs && Owned(store.jobs[jobID], caller)
             && (store.jobs[jobID].state == COMPLETED || store.jobs[jobID].state == FAILED)
    ensures var store := Interfere(s.store, s.now, s.script[0].others).0;
            var (t, out) := Drive(wired, ReconcileOp(jobID, wait, caller, token), s);
            && out == Signing(BareStatus(jobID, store.jobs[jobID].state))
            && t.store == store
            && |t.trace| == |s.trace| + 1
            && t.trace[|s.trace|].call == ToStore(GetJob(jobID))
  {
    var op := ReconcileOp(jobID, wait, caller, token);
    DriveStep(wired, op, s);
    DoneEnds(wired);
    hide Drive;
  }

  /** A caller who does not own the job gets nothing done: the job is read, and that is all. */
  lemma StrangersAreTurnedAway(wired: bool, jobID: string, caller: string, op: Op, s: Setting)
    requires |s.script| > 0 && s.script[0].delivery.Served?
    requires var store := Interfere(s.store, s.now, s.script[0].others).0;
             jobID in store.jobs && caller != "" && store.jobs[jobID].callerSub != caller
    requires || (exists wait, token :: op == ReconcileOp(jobID, wait, caller, token))
             || op == AbandonOp(jobID, caller)
             || (exists sigs :: op == SubmitOp(jobID, sigs, caller))
    ensures Drive(wired, op, s) == (Exchanged(s, ToStore(GetJob(jobID))).0, Rejected(ErrForbidden))
    ensures Drive(wired, op, s).0.store == Interfere(s.store, s.now, s.script[0].others).0
  {
    DriveStep(wired, op, s);
    DoneEnds(wired);
    hide Drive;
  }

  // ---- the merge and its retries ----

  function MergeCall(job: Job, token: string, docID: string, fileless: Bytes): Call {
    ToPort(Complete(docID, fileless, OnBehalf(job.callerSub, token)))
  }

  /** The same call made m times in a row. */
  function Repeat(s: Setting, call: Call, m: nat): Setting
    decreases m
  {
    if m == 0 then s else Repeat(Exchanged(s, call).0, call, m - 1)
  }

  lemma {:induction false} RepeatTrace(s: Setting, call: Call, m: nat)
    ensures var t := Repeat(s, call, m);
            && |t.trace| == |s.trace| + m && t.trace[..|s.trace|] == s.trace
            && forall i :: |s.trace| <= i < |t.trace| ==> t.trace[i].call == call
    decreases m
  {
    hide Exchanged;
    if m > 0 {
      ExchangedTrace(s, call);
      RepeatTrace(Exchanged(s, call).0, call, m - 1);
    }
  }

  /** How many of the next merges the CAS refuses, up to a limit. */
  function Refusals(script: seq<Turn>, limit: nat): nat
    decreases limit
  {
    if limit == 0 || !IsChainAdvanced(ReplyAt(script, 0)) then 0 else 1 + Refusals(Rest(script), limit - 1)
  }

  lemma MergeStep(wired: bool, job: Job, token: string, docID: string, fileless: Bytes, attempt: nat, r: Reply)
    requires attempt <= MAX_CO_SIGN_RETRIES
    ensures var op := InFinalize(job, token, FComplete(docID, fileless, attempt));
            && Request(op) == MergeCall(job, token, docID, fileless)
            && Resume(wired, op, r) ==
                 if IsChainAdvanced(r) then (
                   if attempt < MAX_CO_SIGN_RETRIES then InFinalize(job, token, FComplete(docID, fileless, attempt + 1))
                   else Done(Rejected(ErrChainAdvanced)))
                 else if r.NewId? then InFinalize(job, token, FInsert(r.id))
                 else Done(Rejected(Wrapped(CompleteContainer, FaultOf(r))))
  {
  }

  /** The merge loop from its attempt-th try: it makes one call for every CAS refusal and one more, at most four in all,
      every one with the same document and bytes; four refusals are ErrChainAdvanced, and otherwise the operation goes
      on with the first answer that was not one. */
  lemma {:induction false} MergeLoop(wired: bool, job: Job, token: string, docID: string, fileless: Bytes,
                                     attempt: nat, s: Setting)
    requires attempt <= MAX_CO_SIGN_RETRIES
    ensures var call := MergeCall(job, token, docID, fileless);
            var n := Refusals(s.script, MAX_CO_SIGN_RETRIES + 1 - attempt);
            var end := Drive(wired, InFinalize(job, token, FComplete(docID, fileless, attempt)), s);
            && n <= MAX_CO_SIGN_RETRIES + 1 - attempt
            && (n == MAX_CO_SIGN_RETRIES + 1 - attempt ==> end == (Repeat(s, call, n), Rejected(ErrChainAdvanced)))
            && (n <= MAX_CO_SIGN_RETRIES - attempt ==>
                  !IsChainAdvanced(ReplyAt(s.script, n))
                  && var last := ReplyAt(s.script, n);
                  end == Drive(wired,
                               if last.NewId? then InFinalize(job, token, FInsert(last.id))
                               else Done(Rejected(Wrapped(CompleteContainer, FaultOf(last)))),
                               Repeat(s, call, n + 1)))
    decreases MAX_CO_SIGN_RETRIES - attempt
  {
    hide Drive, Exchanged, Resume, Request;
    var op := InFinalize(job, token, FComplete(docID, fileless, attempt));
    var call := MergeCall(job, token, docID, fileless);
    MergeStep(wired, job, token, docID, fileless, attempt, ReplyAt(s.script, 0));
    DriveStep(wired, op, s);
    ExchangedTrace(s, call);
    DoneEnds(wired);
    var (s', r) := Exchanged(s, call);
    if IsChainAdvanced(r) {
      if attempt < MAX_CO_SIGN_RETRIES {
        MergeLoop(wired, job, token, docID, fileless, attempt + 1, s');
        assert forall i: nat :: ReplyAt(s'.script, i) == ReplyAt(s.script, i + 1);
      }
    } else {
      assert Repeat(s, call, 1) == Repeat(s', call, 0) == s';
    }
  }

  // ---- an induction principle ----

  /** One reply preserves the fact, and the call it answers is of the allowed kind. */
  predicate Preserves(wired: bool, fact: Op -> bool, allowed: Call -> bool, o: Op, r: Reply) {
    fact(o) && !o.Done? ==> allowed(Request(o)) && fact(Resume(wired, o, r))
  }

  ghost predicate Preserved(wired: bool, fact: Op -> bool, allowed: Call -> bool) {
    forall o, r :: Preserves(wired, fact, allowed, o, r)
  }

  lemma PreservedAt(wired: bool, fact: Op -> bool, allowed: Call -> bool, o: Op, r: Reply)
    requires Preserved(wired, fact, allowed) && fact(o) && !o.Done?
    ensures allowed(Request(o)) && fact(Resume(wired, o, r))
  {
    assert Preserves(wired, fact, allowed, o, r);
  }

  /** A fact about an operation that every reply preserves holds to its end, and every call it makes on the way is of
      the kind the fact allows. */
  lemma {:induction false} Throughout(wired: bool, op: Op, s: Setting, fact: Op -> bool, allowed: Call -> bool)
    requires fact(op) && Preserved(wired, fact, allowed)
    ensures var (t, out) := Drive(wired, op, s);
            && fact(Done(out))
            && |s.trace| <= |t.trace| && t.trace[..|s.trace|] == s.trace
            && forall i :: |s.trace| <= i < |t.trace| ==> allowed(t.trace[i].call)
    decreases Rank(op)
  {
    hide Drive, Exchanged, Request, Resume, Rank, Preserved;
    if op.Done? {
      DoneEnds(wired);
      assert op == Done(op.outcome);
    } else {
      DriveStep(wired, op, s);
      ExchangedTrace(s, Request(op));
      var (s', r) := Exchanged(s, Request(op));
      EveryReplyIsProgress(wired, op, r);
      PreservedAt(wired, fact, allowed, op, r);
      Throughout(wired, Resume(wired, op, r), s', fact, allowed);
    }
  }

  // ---- Begin: which document, in which format ----

  /** What a Begin that has read its document's metadata may still ask of anybody. */
  predicate BeginMayCall(input: BeginInput, docID: string, meta: Metadata, call: Call) {
    var sigFormat := FormatOf(input, meta);
    match call
    case ToPort(p) => (
      match p
      case Content(id, obo) => id == docID && sigFormat == PAdES && obo == input.Obo()
      case DataObjects(id, obo) => id == docID && sigFormat != PAdES && meta.kind == Container && obo == input.Obo()
      case Prepare(flow, doc, opts) =>
        && sigFormat != PAdES && flow == input.flow && opts == input.opts
        && doc.documentID == docID && doc.signatureFormat == sigFormat && doc.fileRef == NoFile
        && (meta.kind != Container ==> doc.documentHash == meta.contentHash && doc.digestAlgorithm == SHA_256)
      case PrepareWithFile(flow, doc, _, opts) =>
        && sigFormat == PAdES && flow == input.flow && opts == input.opts
        && doc.documentID == docID && doc.signatureFormat == sigFormat && doc.fileRef == File0
      case _ => false)
    case ToStore(s) => (
      match s
      case AcquireChainLock(chain, slot, _, _) =>
        TakesLock(input.envelopeID, sigFormat) && chain == input.envelopeID && slot == input.slotID
      case ReleaseChainLock(chain, slot) =>
        TakesLock(input.envelopeID, sigFormat) && chain == input.envelopeID && slot == input.slotID
      case SaveJob(save) =>
        && save.sigFormat == sigFormat && save.flow == input.flow
        && save.envelopeID == input.envelopeID && save.slotID == input.slotID
        && save.callerSub == input.callerSub && save.loginMethod == input.loginMethod && save.loA == input.loA
      case _ => false)
  }

  /** Begin has read `meta` of `docID` and works on nothing else. */
  predicate Reading(input: BeginInput, docID: string, meta: Metadata, op: Op) {
    match op
    case InBegin(i, b) => i == input && (
      var sigFormat := FormatOf(input, meta);
      match b
      case BAcquire(d, m) => d == docID && m == meta && TakesLock(input.envelopeID, sigFormat)
      case BContent(d, m) => d == docID && m == meta && sigFormat == PAdES
      case BPrepareFile(d, m, _) => d == docID && m == meta && sigFormat == PAdES
      case BObjects(d, m) => d == docID && m == meta && sigFormat != PAdES && meta.kind == Container
      case BPrepare(d, m, _) => d == docID && m == meta && sigFormat != PAdES
      case BSave(m, _) => m == meta
      case BUndo(_) => TakesLock(input.envelopeID, sigFormat)
      case _ => false)
    case Done(_) => true
    case _ => false
  }

  lemma ReadingCalls(input: BeginInput, docID: string, meta: Metadata, op: Op)
    requires Reading(input, docID, meta, op) && !op.Done?
    ensures BeginMayCall(input, docID, meta, Request(op))
  {
  }

  lemma ReadingGoesOn(input: BeginInput, docID: string, meta: Metadata, b: Beginning, r: Reply)
    requires Reading(input, docID, meta, InBegin(input, b))
    ensures Reading(input, docID, meta, ResumeBegin(input, b, r))
  {
  }

  function IsReading(input: BeginInput, docID: string, meta: Metadata): Op -> bool {
    o => Reading(input, docID, meta, o)
  }

  function MayCall(input: BeginInput, docID: string, meta: Metadata): Call -> bool {
    c => BeginMayCall(input, docID, meta, c)
  }

  lemma ReadingIsPreserved(wired: bool, input: BeginInput, docID: string, meta: Metadata)
    ensures Preserved(wired, IsReading(input, docID, meta), MayCall(input, docID, meta))
  {
    forall o, r ensures Preserves(wired, IsReading(input, docID, meta), MayCall(input, docID, meta), o, r) {
      ReadingStays(wired, input, docID, meta, o, r);
    }
  }

  lemma ReadingStays(wired: bool, input: BeginInput, docID: string, meta: Metadata, o: Op, r: Reply)
    ensures Preserves(wired, IsReading(input, docID, meta), MayCall(input, docID, meta), o, r)
  {
    if Reading(input, docID, meta, o) && !o.Done? {
      ReadingCalls(input, docID, meta, o);
      ReadingGoesOn(input, docID, meta, o.b, r);
    }
    hide BeginCall, ResumeBegin, BeginMayCall;
  }

  /** From the metadata on, one format decides everything: a container is always signed as XAdES and a PDF as PAdES,
      whatever the client hinted; the same format goes to the provider and into the job; bytes are fetched for PAdES
      only; and every call is about the one document. If the metadata cannot be read, nothing else happens. */
  lemma BeginFollowsTheDocument(wired: bool, input: BeginInput, docID: string, s: Setting)
    ensures var r := ReplyAt(s.script, 0);
            var (t, out) := Drive(wired, InBegin(input, BMeta(docID)), s);
            && |t.trace| > |s.trace| && t.trace[..|s.trace|] == s.trace
            && t.trace[|s.trace|].call == ToPort(GetMetadata(docID, input.Obo()))
            && (!r.Meta? ==> |t.trace| == |s.trace| + 1 && out == Rejected(Wrapped(FetchMetadata, FaultOf(r))))
            && (r.Meta? ==>
                  && (r.meta.kind == Container ==> FormatOf(input, r.meta) == XAdES)
                  && (r.meta.kind == Pdf ==> FormatOf(input, r.meta) == PAdES)
                  && forall i :: |s.trace| < i < |t.trace| ==> BeginMayCall(input, docID, r.meta, t.trace[i].call))
  {
    var op := InBegin(input, BMeta(docID));
    DriveStep(wired, op, s);
    ExchangedTrace(s, Request(op));
    DoneEnds(wired);
    var (s', r) := Exchanged(s, Request(op));
    MetadataRead(wired, input, docID, r);
    hide Drive, Exchanged, Resume, Reading, BeginMayCall, Preserved;
    if r.Meta? {
      ReadingIsPreserved(wired, input, docID, r.meta);
      Throughout(wired, Resume(wired, op, r), s', IsReading(input, docID, r.meta), MayCall(input, docID, r.meta));
    }
  }

  lemma MetadataRead(wired: bool, input: BeginInput, docID: string, r: Reply)
    ensures var next := Resume(wired, InBegin(input, BMeta(docID)), r);
            && (!r.Meta? ==> next == Done(Rejected(Wrapped(FetchMetadata, FaultOf(r)))))
            && (r.Meta? ==> Reading(input, docID, r.meta, next))
  {
  }

  /** On an envelope, what is signed is the chain's current head as the document service names it, or its root when
      there is none yet; the client's own document id counts only as a stand-in for a root the envelope does not yield.
      When the head cannot be resolved, nothing is prepared and nothing saved. */
  lemma BeginSignsTheHead(input: BeginInput, s: Setting)
    requires BeginOp(true, input).InBegin? && input.envelopeID != ""
    ensures var root := if ReplyAt(s.script, 0).EnvelopeView? && RootDocument(ReplyAt(s.script, 0).documents) != ""
                        then RootDocument(ReplyAt(s.script, 0).documents) else input.documentID;
            var envelope := ToPort(GetEnvelope(input.envelopeID, input.Obo()));
            var head := ToPort(CurrentHead(root, input.Obo()));
            var r := ReplyAt(Rest(s.script), 0);
            var s2 := Exchanged(Exchanged(s, envelope).0, head).0;
            && |s2.trace| == |s.trace| + 2
            && s2.trace[|s.trace|].call == envelope && s2.trace[|s.trace| + 1].call == head
            && Drive(true, BeginOp(true, input), s) ==
                 if !r.Head? then (s2, Rejected(Wrapped(ResolveHead, FaultOf(r))))
                 else Drive(true, InBegin(input, BMeta(if r.headID != "" then r.headID else root)), s2)
  {
    var op := BeginOp(true, input);
    assert op == InBegin(input, BEnvelope);
    DriveStep(true, op, s);
    ExchangedTrace(s, Request(op));
    DoneEnds(true);
    var (s1, r1) := Exchanged(s, Request(op));
    var next := Resume(true, op, r1);
    DriveStep(true, next, s1);
    ExchangedTrace(s1, Request(next));
    hide Drive, Exchanged;
  }

  predicate SameButDocument(a: BeginInput, b: BeginInput) {
    b == a.(documentID := b.documentID)
  }

  /** Past the root, two Begins that differ only in the client's document id are in the same place. */
  predicate InStep(a: Op, b: Op) {
    match a
    case InBegin(i, x) => b.InBegin? && b.b == x && !x.BEnvelope? && SameButDocument(i, b.input)
    case _ => b == a && a.Done?
  }

  lemma InStepStays(wired: bool, a: Op, b: Op, r: Reply)
    requires InStep(a, b) && !a.Done?
    ensures Request(a) == Request(b) && InStep(Resume(wired, a, r), Resume(wired, b, r))
  {
  }

  lemma {:induction false} InStepRuns(wired: bool, a: Op, b: Op, s: Setting)
    requires InStep(a, b)
    ensures Drive(wired, a, s) == Drive(wired, b, s)
    decreases Rank(a)
  {
    if !a.Done? {
      DriveStep(wired, a, s);
      DriveStep(wired, b, s);
      var (s', r) := Exchanged(s, Request(a));
      InStepStays(wired, a, b, r);
      EveryReplyIsProgress(wired, a, r);
      hide Drive, Exchanged, Request, Resume, Rank, InStep;
      InStepRuns(wired, Resume(wired, a, r), Resume(wired, b, r), s');
    }
  }

  /** When the envelope yields a root, the client's document id has no influence: same calls, store and answer. */
  lemma ClientIdIsIgnored(a: BeginInput, b: BeginInput, s: Setting)
    requires SameButDocument(a, b) && a.envelopeID != ""
    requires ReplyAt(s.script, 0).EnvelopeView? && RootDocument(ReplyAt(s.script, 0).documents) != ""
    ensures Drive(true, BeginOp(true, a), s) == Drive(true, BeginOp(true, b), s)
  {
    var x, y := BeginOp(true, a), BeginOp(true, b);
    if !x.Done? {
      assert x == InBegin(a, BEnvelope) && y == InBegin(b, BEnvelope) && Request(x) == Request(y);
      DriveStep(true, x, s);
      DriveStep(true, y, s);
      ExchangedTrace(s, Request(x));
      var (s', r) := Exchanged(s, Request(x));
      assert InStep(Resume(true, x, r), Resume(true, y, r));
      hide Drive, Exchanged, Request, Resume, InStep;
      InStepRuns(true, Resume(true, x, r), Resume(true, y, r), s');
    }
  }
}
