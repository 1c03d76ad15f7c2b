/** What Begin leaves of the signing lock on every way out, while other slots do whatever they like to it, other
    attempts of its own slot do anything but release it, time passes, and store calls fail or their replies get lost. */
module BeginLeases {
  import opened Protocol
  import opened StoreSpec
  import opened Choreography
  import opened Solo
  import opened CallByCall

  /** The slot does not release the chain, and acquires it, if at all, for as long as the conductor does. */
  predicate Spares(call: StoreCall, chain: string, slot: string) {
    && (call.ReleaseChainLock? && call.chainKey == chain ==> call.holderSlot != slot)
    && (call.AcquireChainLock? && call.chainKey == chain && call.holderSlot == slot ==>
          call.ttlSeconds == SIGNING_LOCK_TTL_SECONDS)
  }

  function Sparing(chain: string, slot: string): StoreCall -> bool {
    c => Spares(c, chain, slot)
  }

  /** Between this operation's calls nobody releases its slot's hold on its chain: other slots do what they like, and
      other attempts of the slot may begin and refresh. */
  predicate Unreleased(script: seq<Turn>, chain: string, slot: string) {
    forall i :: 0 <= i < |script| ==> AllAllowed(script[i].others, Sparing(chain, slot))
  }

  /** The slot got the chain at `since`, and has it at least for as long as that lease lasts. */
  predicate Holding(store: StoreState, now: int, chain: string, slot: string, since: int) {
    && since <= now
    && (now < since + SIGNING_LOCK_TTL_SECONDS * SECOND ==>
          && chain in store.locks && store.locks[chain].slot == slot
          && store.locks[chain].expires >= since + SIGNING_LOCK_TTL_SECONDS * SECOND)
  }

  function IsHolding(chain: string, slot: string, since: int): (StoreState, int) -> bool {
    (store, now) => Holding(store, now, chain, slot, since)
  }

  predicate NotHolding(store: StoreState, chain: string, slot: string) {
    chain in store.locks ==> store.locks[chain].slot != slot
  }

  lemma SparingKeepsHold(chain: string, slot: string, since: int, store: StoreState, now: int, elapsed: nat, id: string,
                         call: StoreCall)
    ensures KeepsAt(IsHolding(chain, slot, since), Sparing(chain, slot), store, now, elapsed, id, call)
  {
  }

  lemma HoldOutlives(chain: string, slot: string, since: int)
    ensures Outlives(IsHolding(chain, slot, since), Sparing(chain, slot))
  {
    forall store, now, elapsed: nat, id, call
      ensures KeepsAt(IsHolding(chain, slot, since), Sparing(chain, slot), store, now, elapsed, id, call)
    {
      SparingKeepsHold(chain, slot, since, store, now, elapsed, id, call);
    }
  }

  /** A call that does not release this slot's lock leaves its hold as it is, whatever becomes of the call. */
  lemma SparingCallsKeepHold(s: Setting, call: Call, chain: string, slot: string, since: int)
    requires Unreleased(s.script, chain, slot) && Holding(s.store, s.now, chain, slot, since)
    requires call.ToStore? ==> Spares(call.s, chain, slot)
    ensures var t := Exchanged(s, call).0; Holding(t.store, t.now, chain, slot, since)
  {
    hide Exchanged, Outlives, AllAllowed, Holding, Spares;
    HoldOutlives(chain, slot, since);
    ExchangeKeeps(s, call, IsHolding(chain, slot, since), Sparing(chain, slot));
    var t := Exchanged(s, call).0;
    assert IsHolding(chain, slot, since)(t.store, t.now);
  }

  /** A release that is answered ended the hold. */
  lemma ReleaseEndsHold(s: Setting, chain: string, slot: string)
    ensures var (t, r) := Exchanged(s, ToStore(ReleaseChainLock(chain, slot)));
            r.Ack? ==> NotHolding(t.store, chain, slot)
  {
  }

  /** A grant starts the hold; a refusal leaves the store as others left it. */
  lemma GrantStartsHold(s: Setting, chain: string, slot: string, who: string)
    ensures var (t, r) := Exchanged(s, ToStore(AcquireChainLock(chain, slot, who, SIGNING_LOCK_TTL_SECONDS)));
            && (r.Granted? || r.Fail?)
            && (r == Granted(true) ==> Holding(t.store, t.now, chain, slot, t.now))
            && (r == Granted(false) ==> |s.script| > 0 && t.store == Interfere(s.store, s.now, s.script[0].others).0)
  {
  }

  // ---- while the lock is held ----

  /** Begin holds the lock and is preparing, saving, or giving up. */
  predicate Locked(input: BeginInput, op: Op) {
    && op.InBegin? && op.input == input && input.envelopeID != ""
    && match op.b
       case BContent(_, m) => FormatOf(input, m) == PAdES
       case BPrepareFile(_, m, _) => FormatOf(input, m) == PAdES
       case BSave(m, _) => FormatOf(input, m) == PAdES
       case BUndo(_) => true
       case _ => false
  }

  predicate IsAcquire(call: Call) {
    call.ToStore? && call.s.AcquireChainLock?
  }

  lemma LockedStays(wired: bool, input: BeginInput, op: Op, r: Reply)
    requires Locked(input, op)
    ensures !IsAcquire(Request(op))
    ensures !op.b.BUndo? ==> Request(op).ToStore? ==> Spares(Request(op).s, input.envelopeID, input.slotID)
    ensures op.b.BUndo? ==> Request(op) == ToStore(ReleaseChainLock(input.envelopeID, input.slotID))
    ensures op.b.BUndo? ==> Resume(wired, op, r) == Done(Rejected(op.b.error))
    ensures Resume(wired, op, r).Done? && !op.b.BUndo? ==> Resume(wired, op, r).outcome.Began?
    ensures !Resume(wired, op, r).Done? ==> Locked(input, Resume(wired, op, r))
  {
  }

  lemma LockedIsBegin(input: BeginInput, op: Op)
    requires Locked(input, op)
    ensures op.InBegin?
  {
  }

  /** The last exchange was the release, and if it was answered, the slot holds nothing. */
  predicate GaveBack(input: BeginInput, t: Setting) {
    && |t.trace| > 0
    && t.trace[|t.trace| - 1].call == ToStore(ReleaseChainLock(input.envelopeID, input.slotID))
    && (t.trace[|t.trace| - 1].reply.Ack? ==> NotHolding(t.store, input.envelopeID, input.slotID))
  }

  /** From there on: success keeps the hold, failure gives it back. */
  lemma {:induction false} LockedBegin(wired: bool, input: BeginInput, op: Op, s: Setting, since: int)
    requires Locked(input, op) && Unreleased(s.script, input.envelopeID, input.slotID)
    requires op.b.BUndo? || Holding(s.store, s.now, input.envelopeID, input.slotID, since)
    ensures var (t, out) := Drive(wired, op, s);
            && |s.trace| <= |t.trace| && t.trace[..|s.trace|] == s.trace
            && (forall i :: |s.trace| <= i < |t.trace| ==> !IsAcquire(t.trace[i].call))
            && (out.Began? || out.Rejected?)
            && (out.Began? ==> Holding(t.store, t.now, input.envelopeID, input.slotID, since))
            && (out.Rejected? ==> GaveBack(input, t))
    decreases Rank(op)
  {
    hide Drive, Exchanged, Resume, Request, Rank, Locked, Holding, NotHolding, Spares, AllAllowed;
    LockedIsBegin(input, op);
    DriveStep(wired, op, s);
    DoneEnds(wired);
    ExchangedTrace(s, Request(op));
    var (s', r) := Exchanged(s, Request(op));
    var next := Resume(wired, op, r);
    LockedStays(wired, input, op, r);
    EveryReplyIsProgress(wired, op, r);
    if op.b.BUndo? {
      ReleaseEndsHold(s, input.envelopeID, input.slotID);
    } else {
      SparingCallsKeepHold(s, Request(op), input.envelopeID, input.slotID, since);
      if next.Done? {
        assert next == Done(next.outcome);
      } else {
        LockedBegin(wired, input, next, s', since);
      }
    }
  }

  // ---- the whole of Begin ----

  /** Begin does not hold the lock: it has not got so far, or signs something that takes none. */
  predicate Unlocked(input: BeginInput, op: Op) {
    match op
    case InBegin(i, b) => i == input && (
      match b
      case BAcquire(_, m) => TakesLock(input.envelopeID, FormatOf(input, m))
      case BContent(_, m) => !TakesLock(input.envelopeID, FormatOf(input, m))
      case BPrepareFile(_, m, _) => !TakesLock(input.envelopeID, FormatOf(input, m))
      case BObjects(_, m) => !TakesLock(input.envelopeID, FormatOf(input, m))
      case BPrepare(_, m, _) => !TakesLock(input.envelopeID, FormatOf(input, m))
      case BSave(m, _) => !TakesLock(input.envelopeID, FormatOf(input, m))
      case BUndo(_) => false
      case _ => true)
    case Done(_) => true
    case _ => false
  }

  lemma UnlockedStays(wired: bool, input: BeginInput, op: Op, r: Reply)
    requires Unlocked(input, op) && !op.Done?
    ensures IsAcquire(Request(op)) <==> op.b.BAcquire?
    ensures Request(op).ToStore? && !op.b.BAcquire? ==> Request(op).s.SaveJob?
    ensures !op.b.BAcquire? ==> Unlocked(input, Resume(wired, op, r))
  {
    if !op.b.BAcquire? {
      UnlockedGoesOn(input, op.b, r);
    }
    hide TakesLock, FormatOf, ResumeBegin;
  }

  lemma UnlockedGoesOn(input: BeginInput, b: Beginning, r: Reply)
    requires Unlocked(input, InBegin(input, b)) && !b.BAcquire?
    ensures Unlocked(input, ResumeBegin(input, b, r))
  {
  }

  lemma AcquireResumes(wired: bool, input: BeginInput, op: Op, r: Reply)
    requires Unlocked(input, op) && op.InBegin? && op.b.BAcquire?
    ensures var acquire := AcquireChainLock(input.envelopeID, input.slotID, input.callerSub, SIGNING_LOCK_TTL_SECONDS);
            Request(op) == ToStore(acquire)
    ensures r == Granted(true) ==> Locked(input, Resume(wired, op, r))
    ensures r == Granted(false) ==> Resume(wired, op, r) == Done(Rejected(ErrSigningInProgress))
    ensures r.Fail? ==> Resume(wired, op, r) == Done(Rejected(Wrapped(AcquireLock, r.fault)))
  {
  }

  /** How things stood when an operation made its last call. */
  function BeforeLast(wired: bool, op: Op, s: Setting): Setting
    decreases Rank(op)
  {
    if op.Done? then s
    else
      var (s', r) := Exchanged(s, Request(op));
      EveryReplyIsProgress(wired, op, r);
      if Resume(wired, op, r).Done? then s else BeforeLast(wired, Resume(wired, op, r), s')
  }

  lemma BeforeLastStep(wired: bool, op: Op, s: Setting)
    requires !op.Done?
    ensures var (s', r) := Exchanged(s, Request(op));
            BeforeLast(wired, op, s) ==
              if Resume(wired, op, r).Done? then s else BeforeLast(wired, Resume(wired, op, r), s')
  {
  }

  /** What one acquire made of the rest of Begin: granted, success means the slot still holds the chain unless the
      lease has run out, and failure means it was given back; refused, that was the end, and the store is as others
      left it; not answered, that was the end. */
  predicate Decided(input: BeginInput, before: Setting, e: Exchange, last: bool, t: Setting, out: Outcome) {
    match e.reply
    case Granted(true) =>
      && (out.Began? || out.Rejected?)
      && (out.Began? ==> Holding(t.store, t.now, input.envelopeID, input.slotID, e.at))
      && (out.Rejected? ==> GaveBack(input, t))
    case Granted(false) =>
      && last && out == Rejected(ErrSigningInProgress)
      && |before.script| > 0 && t.store == Interfere(before.store, before.now, before.script[0].others).0
    case _ => last && e.reply.Fail? && out == Rejected(Wrapped(AcquireLock, e.reply.fault))
  }

  /** However Begin ends, its acquire, if it makes one, decides the lock's fate as it should. */
  lemma {:induction false} BeginLeaseOutcome(wired: bool, input: BeginInput, op: Op, s: Setting)
    requires Unlocked(input, op) && Unreleased(s.script, input.envelopeID, input.slotID)
    ensures var (t, out) := Drive(wired, op, s);
            && |s.trace| <= |t.trace| && t.trace[..|s.trace|] == s.trace
            && forall i :: |s.trace| <= i < |t.trace| && IsAcquire(t.trace[i].call) ==>
                 Decided(input, BeforeLast(wired, op, s), t.trace[i], i == |t.trace| - 1, t, out)
    decreases Rank(op)
  {
    hide Drive, Exchanged, Resume, Request, Rank, Locked, Unlocked, Holding, NotHolding, BeforeLast, Interfere;
    DoneEnds(wired);
    if op.Done? {
      assert op == Done(op.outcome);
      return;
    }
    DriveStep(wired, op, s);
    BeforeLastStep(wired, op, s);
    ExchangedTrace(s, Request(op));
    var (s', r) := Exchanged(s, Request(op));
    var next := Resume(wired, op, r);
    EveryReplyIsProgress(wired, op, r);
    IsBegin(input, op);
    UnlockedStays(wired, input, op, r);
    if op.b.BAcquire? {
      AcquireResumes(wired, input, op, r);
      GrantStartsHold(s, input.envelopeID, input.slotID, input.callerSub);
      if r == Granted(true) {
        LockedIsBegin(input, next);
        NextIsContent(wired, input, op, r);
        LockedBegin(wired, input, next, s', s'.now);
      }
    } else {
      BeginLeaseOutcome(wired, input, next, s');
      if next.Done? {
        assert next == Done(next.outcome);
      }
    }
    var t := Drive(wired, op, s).0;
    assert t.trace[|s.trace|] == t.trace[..|s'.trace|][|s.trace|];
  }

  lemma IsBegin(input: BeginInput, op: Op)
    requires Unlocked(input, op) && !op.Done?
    ensures op.InBegin?
  {
  }

  lemma NextIsContent(wired: bool, input: BeginInput, op: Op, r: Reply)
    requires Unlocked(input, op) && op.InBegin? && op.b.BAcquire? && r == Granted(true)
    ensures Resume(wired, op, r).InBegin? && Resume(wired, op, r).b.BContent?
  {
  }

  /** Every Begin starts without the lock. */
  lemma BeginStartsUnlocked(wired: bool, input: BeginInput)
    ensures Unlocked(input, BeginOp(wired, input)) && Rank(BeginOp(wired, input)) <= 9
  {
  }

  // ---- the job is there ----

  lemma AckedSave(s: Setting, save: SaveJobInput)
    ensures var (t, r) := Exchanged(s, ToStore(SaveJob(save)));
            r.Ack? ==> save.jobID in t.store.jobs && t.store.jobs[save.jobID] == JobOf(save, t.now)
  {
  }

  lemma BeganFrom(input: BeginInput, b: Beginning, r: Reply)
    ensures var next := ResumeBegin(input, b, r);
            && (next.InBegin? || next.Done?)
            && (next.Done? && next.outcome.Began? ==>
                  b.BSave? && r.Ack? && next.outcome.result == BeginResultOf(b.prep))
  {
  }

  /** The metadata a Begin has read. */
  function MetaOf(b: Beginning): Option<Metadata> {
    match b
    case BAcquire(_, m) => Some(m)
    case BContent(_, m) => Some(m)
    case BPrepareFile(_, m, _) => Some(m)
    case BObjects(_, m) => Some(m)
    case BPrepare(_, m, _) => Some(m)
    case BSave(m, _) => Some(m)
    case _ => None
  }

  predicate ReadsMeta(e: Exchange, m: Metadata) {
    e.call.ToPort? && e.call.p.GetMetadata? && e.reply == Meta(m)
  }

  /** The metadata is what Begin has read before, or what it reads in these exchanges. */
  predicate IsMeta(m: Metadata, b: Beginning, trace: seq<Exchange>, from: nat) {
    if MetaOf(b).Some? then m == MetaOf(b).value
    else exists i :: from <= i < |trace| && ReadsMeta(trace[i], m)
  }

  lemma MetaKept(input: BeginInput, b: Beginning, r: Reply)
    ensures var next := ResumeBegin(input, b, r);
            next.InBegin? && !next.b.BUndo? ==>
              && (MetaOf(b).Some? ==> MetaOf(next.b) == MetaOf(b))
              && (MetaOf(b).None? && MetaOf(next.b).Some? ==> b.BMeta? && r == Meta(MetaOf(next.b).value))
  {
  }

  lemma UndoneIsRejected(wired: bool, input: BeginInput, error: Error, s: Setting)
    ensures Drive(wired, InBegin(input, BUndo(error)), s).1 == Rejected(error)
  {
    DriveStep(wired, InBegin(input, BUndo(error)), s);
    DoneEnds(wired);
  }

  /** When Begin reports success, the job is in the store, with the login, flow and owner it was begun under, in the
      format that the document's metadata dictates. */
  lemma {:induction false} BeganMeansSaved(wired: bool, input: BeginInput, b: Beginning, s: Setting)
    returns (m: Metadata)
    ensures var (t, out) := Drive(wired, InBegin(input, b), s);
            out.Began? ==>
              && out.result.jobID in t.store.jobs
              && IsMeta(m, b, t.trace, |s.trace|)
              && var j := t.store.jobs[out.result.jobID];
              && j.jobID == out.result.jobID && j.envelopeID == input.envelopeID && j.slotID == input.slotID
              && j.flow == input.flow && j.sigFormat == FormatOf(input, m) && j.callerSub == input.callerSub
              && j.loginMethod == input.loginMethod && j.loA == input.loA
    decreases BeginRank(b)
  {
    var op := InBegin(input, b);
    DriveStep(wired, op, s);
    DoneEnds(wired);
    ExchangedTrace(s, Request(op));
    var (s', r) := Exchanged(s, Request(op));
    var next := Resume(wired, op, r);
    BeganFrom(input, b, r);
    BeginProgress(input, b, r);
    MetaKept(input, b, r);
    m := Metadata(OtherKind(""), "", OtherMime(""), "");
    if b.BSave? {
      AckedSave(s, SaveInputOf(input, b.meta, b.prep));
      m := b.meta;
    }
    MetaCall(input, b);
    hide Drive, Exchanged, ResumeBegin, BeginRank, MetaOf, BeginCall;
    if next.InBegin? {
      BeginKeepsInput(input, b, r);
      if next.b.BUndo? {
        UndoneIsRejected(wired, input, next.b.error, s');
      } else {
        m := BeganMeansSaved(wired, input, next.b, s');
        DriveTrace(wired, next, s');
        var t := Drive(wired, next, s').0;
        assert t.trace[|s.trace|] == t.trace[..|s'.trace|][|s.trace|];
      }
    } else {
      assert next == Done(next.outcome);
    }
  }

  lemma MetaCall(input: BeginInput, b: Beginning)
    ensures b.BMeta? ==> BeginCall(input, b).ToPort? && BeginCall(input, b).p.GetMetadata?
    ensures b.BSave? ==> MetaOf(b) == Some(b.meta)
  {
  }

  lemma BeginKeepsInput(input: BeginInput, b: Beginning, r: Reply)
    ensures ResumeBegin(input, b, r).InBegin? ==> ResumeBegin(input, b, r).input == input
  {
  }
}
