/** What the system promises of every run: nothing is assumed about how operations interleave, which of them die,
    which replies are lost, how the lease lapses, or what the collaborators answer beyond Worlds. */
module Guarantees {
  import opened Protocol
  import opened Binding
  import opened StoreSpec
  import opened Choreography
  import opened Solo
  import opened LeaseTheory
  import opened Worlds
  import opened Invariants
  import opened Documents
  import opened Reachable
  import opened Steps

  ghost predicate Reached(w: World) {
    exists wired, echoes, now, ls ::
      Legal(Initial(wired, echoes, now), ls) && w == Play(Initial(wired, echoes, now), ls)
  }

  lemma ReachedOK(w: World)
    requires Reached(w)
    ensures WorldOK(w)
  {
    hide WorldOK, Legal, Play;
    var wired, echoes, now, ls :|
      Legal(Initial(wired, echoes, now), ls) && w == Play(Initial(wired, echoes, now), ls);
    InitialOK(wired, echoes, now);
    RunKeeps(Initial(wired, echoes, now), ls);
  }

  // ---- co-signatures ----

  /** When the provider echoes document ids, a chain's current document keeps every signature it carries, however a run
      continues. */
  lemma SignaturesOnlyGrow(w: World, ls: seq<Label>, root: string)
    requires Reached(w) && w.env.echoes && Legal(w, ls) && root in w.env.chains
    ensures Carried(w.env, root) <= Carried(Play(w, ls).env, root)
  {
    ReachedOK(w);
    RunKeeps(w, ls);
    hide Legal, Play, Grows, ChainOK;
    CarriedGrows(w.env, Play(w, ls).env, root);
  }

  /** A record is made only of an artifact of its own job that was accepted onto the chain its document belongs to. */
  lemma RecordedMeansAccepted(w: World, id: string)
    requires Reached(w) && id in w.env.store.sigs
    ensures var s := w.env.store.sigs[id];
            && s.signedDocumentRef in w.env.docs && w.env.docs[s.signedDocumentRef].root in w.env.chains
            && CommitOf(s.sigFormat, s.jobID) in w.env.chains[w.env.docs[s.signedDocumentRef].root].commits
  {
    ReachedOK(w);
    hide OpsOK, LinksOK, PdfOnce, LocksOK, EvidenceOK;
    assert SignatureOK(w.env, id);
  }

  /** A recorded signature is on its chain's current document, at the time and ever after. */
  lemma RecordedMeansCarried(w: World, ls: seq<Label>, id: string)
    requires Reached(w) && w.env.echoes && Legal(w, ls) && id in w.env.store.sigs
    ensures var s, v := w.env.store.sigs[id], Play(w, ls);
            && s.signedDocumentRef in v.env.docs
            && id in v.env.store.sigs && v.env.store.sigs[id].signedDocumentRef == s.signedDocumentRef
            && s.jobID in Carried(v.env, v.env.docs[s.signedDocumentRef].root)
  {
    ReachedOK(w);
    RunKeeps(w, ls);
    hide Legal, Play, OpsOK, LinksOK, PdfOnce, LocksOK;
    var v := Play(w, ls);
    SigsStay(w.env, v.env);
    RecordIsCarried(w.env, v.env, id);
  }

  lemma RecordIsCarried(e: Env, f: Env, id: string)
    requires EnvOK(f) && Grows(e, f) && id in e.store.sigs
    ensures id in f.store.sigs && f.store.sigs[id].signedDocumentRef == e.store.sigs[id].signedDocumentRef
    ensures Landed(f, f.store.jobs[e.store.sigs[id].jobID], e.store.sigs[id].signedDocumentRef)
    ensures f.store.jobs[e.store.sigs[id].jobID].jobID == e.store.sigs[id].jobID
  {
    hide DocsOK, Landed;
    assert SignatureOK(f, id);
  }

  /** When the provider echoes, a signed PDF that was accepted became exactly its base plus its own signature, and
      nothing had been signed on the chain since that base. The CAS looks at the parent's id alone; that the parent's
      id names the bytes the PDF extends follows from how ids move and from what Begin sent. */
  lemma AcceptedPdfExtendsItsBase(w: World, root: string, v: nat)
    requires Reached(w) && w.env.echoes && root in w.env.chains && v < |w.env.chains[root].commits|
    requires w.env.chains[root].commits[v].PdfCommit?
    ensures var chain, j := w.env.chains[root], w.env.chains[root].commits[v].jobID;
            && v + 1 < |chain.content| && j in w.env.prepared
            && exists base: nat ::
                 && w.env.prepared[j].file == Some(ChainBytes(root, base)) && base <= v
                 && NoSigning(chain.commits, base, v)
                 && chain.content[v + 1] == chain.content[base] + {j}
  {
    ReachedOK(w);
    assert ChainOK(w.env, root) && CommitOK(w.env, root, v);
    var j := w.env.chains[root].commits[v].jobID;
    var base := w.env.prepared[j].file.value.version;
    assert w.env.prepared[j].file == Some(ChainBytes(root, base));
    RefreshKeepsContent(w.env, root, base, v);
  }

  // ---- a superseded PDF signing ----

  /** Somebody else signed on the chain since the bytes this job's PDF was prepared over. */
  predicate Superseded(env: Env, j: string) {
    && j in env.prepared && env.prepared[j].file.Some? && env.prepared[j].file.value.ChainBytes?
    && var base := env.prepared[j].file.value;
    && base.root in env.chains
    && !PdfAccepted(env, j)
    && exists v :: base.version <= v < |env.chains[base.root].commits|
        && !env.chains[base.root].commits[v].RefreshCommit?
  }

  lemma SupersededIsNeverAccepted(e: Env, f: Env, j: string)
    requires f.echoes && Superseded(e, j) && Grows(e, f) && DocsOK(f)
    ensures Superseded(f, j) && !PdfAccepted(f, j)
  {
    var base := e.prepared[j].file.value;
    assert ChainGrows(e.chains[base.root], f.chains[base.root]);
    if PdfAccepted(f, j) {
      hide Superseded, PdfAccepted, DocsOK;
      AcceptedInTime(e, f, j, base);
    }
  }

  /** A PDF that is accepted between e and f was not superseded at e. */
  lemma AcceptedInTime(e: Env, f: Env, j: string, base: Bytes)
    requires f.echoes && Grows(e, f) && DocsOK(f) && PdfAccepted(f, j) && !PdfAccepted(e, j)
    requires j in e.prepared && e.prepared[j].file == Some(base) && base.ChainBytes? && base.root in e.chains
    ensures !Superseded(e, j)
  {
    var old', commits := e.chains[base.root].commits, f.chains[base.root].commits;
    assert ChainGrows(e.chains[base.root], f.chains[base.root]);
    var k := AcceptedAt(f, j);
    assert k >= |old'| by {
      assert !OnChain(e, PdfCommit(j), base.root);
      assert forall i :: 0 <= i < |old'| ==> old'[i] == commits[i];
    }
    forall v | base.version <= v < |old'| ensures old'[v].RefreshCommit? {
      assert old'[v] == commits[v];
    }
  }

  /** However a run continues, a superseded signing is never recorded, and no pass over it is about to record it. */
  lemma SupersededNeverRecords(w: World, ls: seq<Label>, j: string)
    requires Reached(w) && w.env.echoes && Legal(w, ls) && Superseded(w.env, j)
    ensures var v := Play(w, ls);
            && Superseded(v.env, j)
            && (j in v.env.store.jobs ==> v.env.store.jobs[j].sigFormat == PAdES)
            && (forall id :: id in v.env.store.sigs ==> v.env.store.sigs[id].jobID != j)
            && (forall i :: i in v.ops && Recording(v.ops[i]) ==> v.ops[i].job.jobID != j)
  {
    var v := Play(w, ls);
    ReachedOK(w);
    RunKeeps(w, ls);
    hide Legal, Play, Superseded, PdfAccepted, Grows, LinksOK, PdfOnce, LocksOK, EvidenceOK, OpOK, RowsOK, DocsOK;
    SupersededIsNeverAccepted(w.env, v.env, j);
    NothingUnaccepted(v, j);
  }

  /** Nothing of a prepared PDF that was not accepted is recorded or about to be. */
  lemma NothingUnaccepted(v: World, j: string)
    requires EnvOK(v.env) && OpsOK(v) && Superseded(v.env, j) && !PdfAccepted(v.env, j)
    ensures j in v.env.store.jobs ==> v.env.store.jobs[j].sigFormat == PAdES
    ensures forall id :: id in v.env.store.sigs ==> v.env.store.sigs[id].jobID != j
    ensures forall i :: i in v.ops && Recording(v.ops[i]) ==> v.ops[i].job.jobID != j
  {
    assert PreparedOK(v.env, j);
    assert forall root :: root in v.env.chains ==> !OnChain(v.env, PdfCommit(j), root);
    if j in v.env.store.jobs {
      assert JobOK(v.env, j);
    }
    forall id | id in v.env.store.sigs ensures v.env.store.sigs[id].jobID != j {
      assert SignatureOK(v.env, id);
    }
    forall i | i in v.ops && Recording(v.ops[i]) ensures v.ops[i].job.jobID != j {
      assert OpOK(v, v.ops[i]);
    }
  }

  /** Storing a superseded PDF is refused, whatever the document it is stored against names by then: what the CAS
      compares is no longer its chain's current document. */
  lemma RefusedWhenSuperseded(e: Env, j: string)
    requires DocsOK(e) && Superseded(e, j)
    ensures forall id :: !AcceptsPdf(e, e.prepared[j].docID, id)
  {
    hide DocsOK, IsCurrent;
    if IsCurrent(e, e.prepared[j].docID) {
      CurrentIsNotSuperseded(e, j);
    }
  }

  lemma CurrentIsNotSuperseded(e: Env, j: string)
    requires DocsOK(e) && j in e.prepared && e.prepared[j].file.Some? && IsCurrent(e, e.prepared[j].docID)
    ensures !Superseded(e, j)
  {
    BaseIsCurrent(e, e.prepared[j].docID, j);
  }

  /** Of all the signings prepared over one version of a chain, at most one is ever recorded. */
  lemma OneWinnerPerBase(w: World, s: string, t: string)
    requires Reached(w) && w.env.echoes && s in w.env.store.sigs && t in w.env.store.sigs
    requires w.env.store.sigs[s].sigFormat == PAdES && w.env.store.sigs[t].sigFormat == PAdES
    requires w.env.store.sigs[s].jobID in w.env.prepared && w.env.store.sigs[t].jobID in w.env.prepared
    requires w.env.prepared[w.env.store.sigs[s].jobID].file == w.env.prepared[w.env.store.sigs[t].jobID].file
    ensures s == t
  {
    ReachedOK(w);
    hide OpsOK, LinksOK, LocksOK, EvidenceOK;
    var e, j, k := w.env, w.env.store.sigs[s].jobID, w.env.store.sigs[t].jobID;
    assert SignatureOK(e, s) && SignatureOK(e, t);
    RecordedPdf(e, s);
    RecordedPdf(e, t);
    SameBaseSameJob(e, j, k);
  }

  lemma RecordedPdf(e: Env, s: string)
    requires EnvOK(e) && s in e.store.sigs && e.store.sigs[s].sigFormat == PAdES
    ensures PdfAccepted(e, e.store.sigs[s].jobID)
  {
    assert SignatureOK(e, s);
    assert OnChain(e, PdfCommit(e.store.sigs[s].jobID), e.docs[e.store.sigs[s].signedDocumentRef].root);
  }

  lemma SameBaseSameJob(e: Env, j: string, k: string)
    requires DocsOK(e) && e.echoes && PdfAccepted(e, j) && PdfAccepted(e, k)
    requires j in e.prepared && k in e.prepared && e.prepared[j].file == e.prepared[k].file
    ensures j == k
  {
    var u := AcceptedAt(e, j);
    var v := AcceptedAt(e, k);
  }

  /** An accepted PDF's place on the chain of its base. */
  lemma AcceptedAt(e: Env, j: string) returns (v: nat)
    requires DocsOK(e) && e.echoes && PdfAccepted(e, j)
    ensures j in e.prepared && e.prepared[j].file.Some? && e.prepared[j].file.value.ChainBytes?
    ensures var base := e.prepared[j].file.value;
            && base.root in e.chains && v < |e.chains[base.root].commits|
            && e.chains[base.root].commits[v] == PdfCommit(j)
            && NoSigning(e.chains[base.root].commits, base.version, v)
  {
    var root :| root in e.chains && OnChain(e, PdfCommit(j), root);
    assert ChainOK(e, root);
    v :| v < |e.chains[root].commits| && e.chains[root].commits[v] == PdfCommit(j);
    assert CommitOK(e, root, v);
  }

  /** When the provider echoes, a PAdES signing is recorded at most once, even if its polls overlap, its job is
      reopened by a late client signature, and replies get lost. */
  lemma PdfRecordedAtMostOnce(w: World, s: string, t: string)
    requires Reached(w) && w.env.echoes && s in w.env.store.sigs && t in w.env.store.sigs
    requires w.env.store.sigs[s].sigFormat == PAdES && w.env.store.sigs[s].jobID == w.env.store.sigs[t].jobID
    ensures s == t
  {
    ReachedOK(w);
  }

  // ---- evidence ----

  /** Every record names a job that exists and says of it exactly what the job says; the login permitted the flow. */
  lemma EvidenceIsTruthful(w: World, id: string)
    requires Reached(w) && id in w.env.store.sigs
    ensures var s := w.env.store.sigs[id];
            && s.id == id && s.jobID in w.env.store.jobs
            && Truthful(s, w.env.store.jobs[s.jobID])
            && Permits(s.loginMethod, s.flowUsed)
            && s.jobID in w.env.prepared && w.env.prepared[s.jobID].sigFormat == s.sigFormat
  {
    ReachedOK(w);
    hide OpsOK, LinksOK, LocksOK, EvidenceOK, DocsOK, PdfOnce;
    assert SignatureOK(w.env, id);
    assert JobOK(w.env, w.env.store.sigs[id].jobID);
  }

  /** What identifies a job or a record never changes; only a job's state and a record's validation do. */
  lemma RowsKeepTheirIdentity(w: World, ls: seq<Label>)
    requires Reached(w) && Legal(w, ls)
    ensures var v := Play(w, ls);
            && (forall j :: j in w.env.store.jobs ==>
                  j in v.env.store.jobs && SameIdentity(w.env.store.jobs[j], v.env.store.jobs[j]))
            && (forall s :: s in w.env.store.sigs ==>
                  s in v.env.store.sigs && SameRecord(w.env.store.sigs[s], v.env.store.sigs[s]))
  {
    ReachedOK(w);
    RunKeeps(w, ls);
  }

  /** The provider is asked to prepare a signing only under a login that permits the flow it is asked for, and in the
      one format that the document's own form dictates. */
  lemma PreparesArePermitted(w: World, id: nat)
    requires Reached(w) && id in w.ops && !w.ops[id].Done? && Request(w.ops[id]).ToPort?
    requires Request(w.ops[id]).p.Prepare? || Request(w.ops[id]).p.PrepareWithFile?
    ensures var op, p := w.ops[id], Request(w.ops[id]).p;
            && op.InBegin? && Permits(op.input.loginMethod, p.flow)
            && (op.b.BPrepare? || op.b.BPrepareFile?)
            && p.doc.signatureFormat == FormatOf(op.input, op.b.meta)
            && (p.PrepareWithFile? <==> p.doc.signatureFormat == PAdES)
  {
    assert OpOK(w, w.ops[id]) by {
      ReachedOK(w);
      hide EnvOK, LinksOK, LocksOK, EvidenceOK, PdfOnce, OpOK;
    }
    WhoPrepares(w.ops[id]);
  }

  lemma WhoPrepares(op: Op)
    requires !op.Done? && Request(op).ToPort? && (Request(op).p.Prepare? || Request(op).p.PrepareWithFile?)
    ensures op.InBegin? && (op.b.BPrepare? || op.b.BPrepareFile?)
  {
  }

  /** Every call any operation is about to make is one the environment's promises cover (CallOK): signatures are
      inserted only for landed artifacts, the download, store and merge calls match the job's format, and slot
      notifications name a record of a job marked COMPLETED. */
  lemma EveryCallIsGood(w: World, id: nat)
    requires Reached(w) && id in w.ops
    ensures !w.ops[id].Done? && CallOK(w, Request(w.ops[id]))
  {
    ReachedOK(w);
    hide EnvOK, LinksOK, LocksOK, EvidenceOK, PdfOnce, CallOK, Request;
    assert OpOK(w, w.ops[id]);
    OpMakesGoodCalls(w, w.ops[id]);
  }

  // ---- validation ----

  /** A record's validation fields are those of the report it links to: the report exists, is about this signature,
      and was made from the answer whose pass flag the record shows. */
  lemma ValidationLinksNeverDangle(w: World, id: string)
    requires Reached(w) && id in w.env.store.sigs
    ensures var s, ids := w.env.store.sigs[id], LinksOf(w.hist, id);
            && s.level == LastLevel(ids, w.hist.evidence)
            && (s.validationID == "" <==> ids == [])
            && (s.validationID == "" ==> !s.validated && s.level == "")
            && (s.validationID != "" ==>
                  && s.validationID == Last(ids)
                  && s.validationID in w.env.store.reports && s.validationID in w.hist.evidence
                  && w.env.store.reports[s.validationID].signatureID == id
                  && w.env.store.reports[s.validationID] == ReportOf(id, w.hist.evidence[s.validationID])
                  && s.validated == w.hist.evidence[s.validationID].pass)
  {
    ReachedOK(w);
    hide EnvOK, OpsOK, LocksOK, PdfOnce;
    assert LinkOK(w, id);
    var ids := LinksOf(w.hist, id);
    if |ids| > 0 {
      assert IsEvidence(w, id, Last(ids));
    }
  }

  // ---- the lease ----

  /** A slot whose every refresh comes while the last one is less than five minutes old, and that does not release,
      is the only one whose acquires on the chain are granted, and all of its own are. */
  lemma KeepAliveHoldsTheChain(w: World, i: nat, m: nat)
    requires Reached(w) && i < m < |w.hist.calls| && Grant(w.hist.calls, i)
    requires w.hist.calls[m].call.AcquireChainLock? && w.hist.calls[m].call.chainKey == w.hist.calls[i].call.chainKey
    requires forall k :: i < k <= m ==>
      !Releases(w.hist.calls[k], w.hist.calls[i].call.chainKey, w.hist.calls[i].call.holderSlot)
    requires forall k :: i < k <= m ==>
      exists j :: i <= j < k
          && Acquires(w.hist.calls[j], w.hist.calls[i].call.chainKey, w.hist.calls[i].call.holderSlot)
                  && w.hist.calls[k].at < w.hist.calls[j].at + SIGNING_LOCK_TTL_SECONDS * SECOND
    ensures Grant(w.hist.calls, m) <==> w.hist.calls[m].call.holderSlot == w.hist.calls[i].call.holderSlot
  {
    ReachedOK(w);
    hide EnvOK, OpsOK, LinksOK, EvidenceOK, PdfOnce;
    var log := w.hist.calls;
    forall k | i < k <= m ensures Fresh(log, i, k) {
      var j :| i <= j < k && Acquires(log[j], log[i].call.chainKey, log[i].call.holderSlot)
               && log[k].at < log[j].at + SIGNING_LOCK_TTL_SECONDS * SECOND;
      assert log[k].at < Until(log[j]);
    }
    KeepAliveExcludes(log, i, m);
  }

  /** No entry outlives its slot's last acquire by more than five minutes. So a chain whose holder has not acquired it
      for five minutes is free to every slot, whatever became of the holder and however often others have tried
      meanwhile. */
  lemma AbandonmentIsBounded(w: World, chain: string, slot: string)
    requires Reached(w)
    ensures chain in w.env.store.locks ==>
              exists i :: 0 <= i < |w.hist.calls|
                && Acquires(w.hist.calls[i], chain, w.env.store.locks[chain].slot)
                && w.env.store.locks[chain].expires == w.hist.calls[i].at + SIGNING_LOCK_TTL_SECONDS * SECOND
                && w.env.store.locks[chain].expires <= w.env.now + SIGNING_LOCK_TTL_SECONDS * SECOND
    ensures (chain in w.env.store.locks ==>
               forall i :: 0 <= i < |w.hist.calls| ==>
                 Acquires(w.hist.calls[i], chain, w.env.store.locks[chain].slot) ==>
                   w.hist.calls[i].at + SIGNING_LOCK_TTL_SECONDS * SECOND <= w.env.now) ==>
              && LockStatus(w.env.store.locks, chain, w.env.now) == (false, "")
              && Acquirable(w.env.store.locks, chain, slot, w.env.now)
  {
    ReachedOK(w);
    hide EnvOK, OpsOK, LinksOK, EvidenceOK, PdfOnce;
    var log := w.hist.calls;
    assert log[..|log|] == log;
    if chain in w.env.store.locks {
      var i := EntryHasGrant(log, |log|, chain);
      assert Acquires(log[i], chain, w.env.store.locks[chain].slot);
    }
  }

  /** In terms of the calls alone: a chain is free exactly when no grant on it that its slot has neither released nor
      refreshed is less than five minutes old. Refused attempts do not count. */
  lemma FreeExactlyWhenNoGrantStands(w: World, chain: string)
    requires Reached(w)
    ensures LockStatus(w.env.store.locks, chain, w.env.now) == (false, "") <==>
      forall i: nat :: i < |w.hist.calls| ==>
        Standing(w.hist.calls, i, |w.hist.calls|) && w.hist.calls[i].call.chainKey == chain ==>
          w.hist.calls[i].at + SIGNING_LOCK_TTL_SECONDS * SECOND <= w.env.now
  {
    ReachedOK(w);
    hide EnvOK, OpsOK, LinksOK, EvidenceOK, PdfOnce;
    FreeExactly(w.hist.calls, chain, w.env.now);
  }

  /** Only Begin and a pending poll ever acquire, and always for the envelope and slot they work for. */
  lemma WhoAcquires(w: World, id: nat)
    requires Reached(w) && id in w.ops && !w.ops[id].Done?
    requires Request(w.ops[id]).ToStore? && Request(w.ops[id]).s.AcquireChainLock?
    ensures var op, s := w.ops[id], Request(w.ops[id]).s;
            || (op.InBegin? && op.b.BAcquire? && s.chainKey == op.input.envelopeID && s.holderSlot == op.input.slotID
                && FormatOf(op.input, op.b.meta) == PAdES && s.chainKey != "")
            || (op.InReconcile? && op.r.RKeep? && s.chainKey == op.r.job.envelopeID && s.holderSlot == op.r.job.slotID
                && op.r.job.sigFormat == PAdES && s.chainKey != "")
  {
    assert OpOK(w, w.ops[id]) by {
      ReachedOK(w);
      hide EnvOK, LinksOK, LocksOK, EvidenceOK, PdfOnce, OpOK;
    }
    AcquiringOps(w.ops[id]);
  }

  lemma AcquiringOps(op: Op)
    requires !op.Done? && Request(op).ToStore? && Request(op).s.AcquireChainLock?
    ensures (op.InBegin? && op.b.BAcquire?) || (op.InReconcile? && op.r.RKeep?)
  {
  }

  /** Holding the lease does not mean signing the current head: the head was resolved before the lease was acquired, and
      whenever the chain has moved on in between, the operation gets the lock and goes on with the old version. What
      protects the chain then is the CAS alone. When it does sign the current version, Freshness says. */
  lemma LeaseDoesNotMeanCurrent(w: World, id: nat, newID: string)
    requires Reached(w) && id in w.ops && w.ops[id].InBegin? && w.ops[id].b.BAcquire? && FreshId(w.env.store, newID)
    requires var docID := w.ops[id].b.docID;
             && docID in w.env.docs && w.env.docs[docID].root in w.env.chains
             && w.env.docs[docID].version < |w.env.chains[w.env.docs[docID].root].commits|
    requires Acquirable(w.env.store.locks, w.ops[id].input.envelopeID, w.ops[id].input.slotID, w.env.now)
    ensures var l := Serve(id, Answering(Served, newID, Ack));
            && Enabled(w, l)
            && var v, op := Next(w, l), w.ops[id];
            && LockStatus(v.env.store.locks, op.input.envelopeID, v.env.now) == (true, op.input.slotID)
            && id in v.ops && v.ops[id] == InBegin(op.input, BContent(op.b.docID, op.b.meta))
            && forall r :: PortAllows(v.env, Request(v.ops[id]).p, r) && r.Blob? ==>
                 r.bytes == ChainBytes(w.env.docs[op.b.docID].root, w.env.docs[op.b.docID].version)
  {
    assert OpOK(w, w.ops[id]) by {
      ReachedOK(w);
      hide EnvOK, LinksOK, LocksOK, EvidenceOK, PdfOnce, OpOK;
    }
    AcquireIsGranted(w, id, newID);
    hide Reached, OpOK, Next, Enabled, Apply, ResumeBegin, Note;
  }

  lemma AcquireIsGranted(w: World, id: nat, newID: string)
    requires id in w.ops && w.ops[id].InBegin? && w.ops[id].b.BAcquire? && OpOK(w, w.ops[id])
    requires FreshId(w.env.store, newID)
    requires Acquirable(w.env.store.locks, w.ops[id].input.envelopeID, w.ops[id].input.slotID, w.env.now)
    ensures var l := Serve(id, Answering(Served, newID, Ack));
            && Enabled(w, l)
            && var v, op := Next(w, l), w.ops[id];
            && v.env == w.env.(store := v.env.store)
            && LockStatus(v.env.store.locks, op.input.envelopeID, v.env.now) == (true, op.input.slotID)
            && id in v.ops && v.ops[id] == InBegin(op.input, BContent(op.b.docID, op.b.meta))
  {
  }

  /** The lease belongs to the slot, not to the attempt: a Begin that gives up ends its slot's hold on the chain even if
      another attempt of the same slot counts on it, and nobody else's. */
  lemma GivingUpReleasesTheSlot(w: World, id: nat, newID: string)
    requires id in w.ops && w.ops[id].InBegin? && w.ops[id].b.BUndo? && FreshId(w.env.store, newID)
    ensures var l := Serve(id, Answering(Served, newID, Ack));
            && Enabled(w, l)
            && var locks, chain, slot := Next(w, l).env.store.locks, w.ops[id].input.envelopeID, w.ops[id].input.slotID;
            && (chain in locks ==> locks[chain].slot != slot)
            && forall c :: c in w.env.store.locks && (c != chain || w.env.store.locks[c].slot != slot) ==>
                 c in locks && locks[c] == w.env.store.locks[c]
  {
  }

  /** The artifact is validated as what it is: by the file name of the format its job was begun in. */
  lemma ValidatedAsSigned(w: World, id: nat)
    requires Reached(w) && id in w.ops && w.ops[id].InValidation? && w.ops[id].at.VValidate?
    ensures var sigID := w.ops[id].v.sigID;
            && sigID in w.env.store.sigs && w.env.store.sigs[sigID].jobID in w.env.store.jobs
            && Request(w.ops[id]) == ToPort(Validate(w.ops[id].at.container,
                 if w.env.store.jobs[w.env.store.sigs[sigID].jobID].sigFormat == PAdES then DocumentPdf
                 else ContainerAsice))
  {
    hide DocsOK, LinksOK, LocksOK, EvidenceOK, PdfOnce, OpOK, SignatureOK, Reached;
    ReachedOK(w);
    assert OpOK(w, w.ops[id]);
    RecordIsOfFormat(w, w.ops[id].v, w.ops[id].at);
  }

  lemma RecordIsOfFormat(w: World, v: Validation, at: Validating)
    requires EnvOK(w.env) && OpOK(w, InValidation(v, at))
    ensures v.sigID in w.env.store.sigs && w.env.store.sigs[v.sigID].jobID in w.env.store.jobs
    ensures w.env.store.jobs[w.env.store.sigs[v.sigID].jobID].sigFormat == v.sigFormat
  {
    hide DocsOK, Landed;
    assert SignatureOK(w.env, v.sigID);
  }
}
