/** When a signing's hold on its chain is renewed and when it ends: a pending poll renews it, a completed pass and an
    abandoned attempt end it, and nobody else's hold is touched. Other slots do what they like meanwhile, and calls may
    fail; what a call is said to have done, it did if it was answered. */
module ChainRelease {
  import opened Protocol
  import opened StoreSpec
  import opened Choreography
  import opened Solo
  import opened CallByCall
  import opened BestEffort
  import opened BeginLeases

  /** The call does not take the chain for this slot. */
  predicate ByOthers(call: StoreCall, chain: string, slot: string) {
    call.AcquireChainLock? && call.chainKey == chain ==> call.holderSlot != slot
  }

  function Others(chain: string, slot: string): StoreCall -> bool {
    c => ByOthers(c, chain, slot)
  }

  /** Between this operation's calls nobody takes the chain for its slot. */
  predicate Uncontested(script: seq<Turn>, chain: string, slot: string) {
    forall i :: 0 <= i < |script| ==> AllAllowed(script[i].others, Others(chain, slot))
  }

  function IsFree(chain: string, slot: string): (StoreState, int) -> bool {
    (store, now) => NotHolding(store, chain, slot)
  }

  lemma OthersKeepFree(chain: string, slot: string, store: StoreState, now: int, elapsed: nat, id: string,
                       call: StoreCall)
    ensures KeepsAt(IsFree(chain, slot), Others(chain, slot), store, now, elapsed, id, call)
  {
  }

  lemma FreeOutlives(chain: string, slot: string)
    ensures Outlives(IsFree(chain, slot), Others(chain, slot))
  {
    forall store, now, elapsed: nat, id, call
      ensures KeepsAt(IsFree(chain, slot), Others(chain, slot), store, now, elapsed, id, call)
    {
      OthersKeepFree(chain, slot, store, now, elapsed, id, call);
    }
  }

  lemma OtherCallsKeepFree(s: Setting, call: Call, chain: string, slot: string)
    requires Uncontested(s.script, chain, slot) && NotHolding(s.store, chain, slot)
    requires call.ToStore? ==> ByOthers(call.s, chain, slot)
    ensures NotHolding(Exchanged(s, call).0.store, chain, slot)
  {
    hide Exchanged, Outlives, AllAllowed, NotHolding, ByOthers;
    FreeOutlives(chain, slot);
    ExchangeKeeps(s, call, IsFree(chain, slot), Others(chain, slot));
    var t := Exchanged(s, call).0;
    assert IsFree(chain, slot)(t.store, t.now);
  }

  lemma QuietCallsSpareLocks(sigID: string, call: Call, chain: string, slot: string)
    requires QuietCall(sigID, call)
    ensures call.ToStore? ==> ByOthers(call.s, chain, slot)
  {
  }

  /** Nothing after the mark takes the chain again. */
  lemma {:induction false} QuietRunStaysFree(wired: bool, job: Job, token: string, ref: string, sigID: string,
                                             op: Op, s: Setting)
    requires Quiet(job, token, ref, sigID, op)
    requires Uncontested(s.script, job.envelopeID, job.slotID)
    requires NotHolding(s.store, job.envelopeID, job.slotID)
    ensures NotHolding(Drive(wired, op, s).0.store, job.envelopeID, job.slotID)
    decreases Rank(op)
  {
    hide Drive, Exchanged, Request, Resume, Rank, Quiet, QuietCall, NotHolding, ByOthers, AllAllowed;
    if op.Done? {
      DoneEnds(wired);
      assert op == Done(op.outcome);
    } else {
      DriveStep(wired, op, s);
      ExchangedTrace(s, Request(op));
      var (s', r) := Exchanged(s, Request(op));
      QuietStays(wired, job, token, ref, sigID, op, r);
      QuietCallsSpareLocks(sigID, Request(op), job.envelopeID, job.slotID);
      OtherCallsKeepFree(s, Request(op), job.envelopeID, job.slotID);
      EveryReplyIsProgress(wired, op, r);
      QuietRunStaysFree(wired, job, token, ref, sigID, Resume(wired, op, r), s');
    }
  }

  /** A pass that marks a PAdES job releases its chain before anything else; and if the release is answered, its slot
      holds nothing at the end either. */
  lemma CompletionFreesTheChain(wired: bool, job: Job, token: string, ref: string, sigID: string, s: Setting)
    requires TakesLock(job.envelopeID, job.sigFormat) && Uncontested(s.script, job.envelopeID, job.slotID)
    ensures var op := InFinalize(job, token, FMark(ref, sigID));
            var marked := Exchanged(s, ToStore(ReconcileJob(job.jobID, COMPLETED))).0;
            var (released, r) := Exchanged(marked, ToStore(ReleaseChainLock(job.envelopeID, job.slotID)));
            var (t, out) := Drive(wired, op, s);
            out.Signing? ==>
              && out.status.state == COMPLETED
              && Drive(wired, op, s) == Drive(wired, AfterRelease(wired, job, token, ref, sigID), released)
              && (r.Ack? ==> NotHolding(t.store, job.envelopeID, job.slotID))
  {
    var op := InFinalize(job, token, FMark(ref, sigID));
    DriveStep(wired, op, s);
    ExchangedTrace(s, Request(op));
    DoneEnds(wired);
    var (s1, r1) := Exchanged(s, Request(op));
    if r1.Ack? {
      var next := InFinalize(job, token, FRelease(ref, sigID));
      assert Resume(wired, op, r1) == next;
      DriveStep(wired, next, s1);
      ExchangedTrace(s1, Request(next));
      var (s2, r2) := Exchanged(s1, Request(next));
      ReleaseEndsHold(s1, job.envelopeID, job.slotID);
      hide Drive, Exchanged, NotHolding, AllAllowed;
      MarkedIsDone(wired, job, token, ref, sigID, s2);
      if r2.Ack? {
        QuietRunStaysFree(wired, job, token, ref, sigID, AfterRelease(wired, job, token, ref, sigID), s2);
      }
    }
  }

  /** Abandoning reads the job, checks its owner and, for a PAdES signing on an envelope, releases its slot's hold.
      Nothing else is asked of anybody: the job stays as it is. */
  lemma AbandonFreesTheChain(wired: bool, jobID: string, caller: string, s: Setting)
    ensures var (got, r) := Exchanged(s, ToStore(GetJob(jobID)));
            var (t, out) := Drive(wired, AbandonOp(jobID, caller), s);
            && (out.Abandoned? <==> r.JobRow? && Owned(r.job, caller))
            && (!out.Abandoned? ==> t == got && out.Rejected?)
            && (out.Abandoned? ==>
                  if TakesLock(r.job.envelopeID, r.job.sigFormat) then
                    var (released, r') := Exchanged(got, ToStore(ReleaseChainLock(r.job.envelopeID, r.job.slotID)));
                    t == released && (r'.Ack? ==> NotHolding(t.store, r.job.envelopeID, r.job.slotID))
                  else t == got)
  {
    var op := AbandonOp(jobID, caller);
    DriveStep(wired, op, s);
    DoneEnds(wired);
    var (s1, r1) := Exchanged(s, Request(op));
    var next := Resume(wired, op, r1);
    if !next.Done? {
      DriveStep(wired, next, s1);
      ReleaseEndsHold(s1, next.a.job.envelopeID, next.a.job.slotID);
    }
    hide Drive, NotHolding, Exchanged;
  }

  /** A poll that finds the provider still at work renews the lease, counted from that moment, unless another slot holds
      the chain by then, whose hold is left alone. */
  lemma PendingPollKeepsAlive(wired: bool, jobID: string, job: Job, token: string, st: StatusResult, s: Setting)
    requires TakesLock(job.envelopeID, job.sigFormat) && st.state != READY && st.state != FAILED
    ensures var noted := Exchanged(s, ToStore(ReconcileJob(jobID, st.state))).0;
            var acquire := AcquireChainLock(job.envelopeID, job.slotID, job.callerSub, SIGNING_LOCK_TTL_SECONDS);
            var (t, r) := Exchanged(noted, ToStore(acquire));
            var (end, out) := Drive(wired, InReconcile(jobID, RNote(job, token, st)), s);
            out.Signing? ==>
              && out == Signing(PendingStatus(jobID, st)) && end == t
              && (r.Granted? ==> |noted.script| > 0 && Renewed(noted, t, job.envelopeID, job.slotID, r.acquired))
  {
    var op := InReconcile(jobID, RNote(job, token, st));
    DriveStep(wired, op, s);
    DoneEnds(wired);
    var (s1, r1) := Exchanged(s, Request(op));
    if r1.Ack? {
      var next := InReconcile(jobID, RKeep(job, st));
      assert Resume(wired, op, r1) == next;
      DriveStep(wired, next, s1);
    }
    hide Drive, Interfere;
  }

  /** What an answered acquire did, after what others did first. */
  predicate Renewed(s: Setting, t: Setting, chain: string, slot: string, acquired: bool)
    requires |s.script| > 0
  {
    var store := Interfere(s.store, s.now, s.script[0].others).0;
    && t.store.jobs == store.jobs
    && (acquired <==> Acquirable(store.locks, chain, slot, t.now))
    && t.store.locks == if acquired then store.locks[chain := Lease(slot, t.now + SIGNING_LOCK_TTL_SECONDS * SECOND)]
                        else store.locks
  }
}
