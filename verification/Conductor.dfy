/** The conductor itself (orchestrator/orchestrator.go), over the in-memory store and its collaborators. Every
    method is proved to make exactly the calls, in the order, with the arguments, and to return exactly the
    outcome that the choreography prescribes, whatever the collaborators answer, whatever other clients do to
    the store in between, and wherever calls fail. */
module Conducting {
  import opened Protocol
  import opened Binding
  import opened StoreSpec
  import opened MemoryStore
  import opened Choreography
  import opened Solo
  import opened CallByCall
  import opened Waits
  import opened Stories
  import opened Telling

  /** The in-memory store and the collaborators, behind one door; the script decides what the conductor cannot. */
  class Gateway {
    const memory: Memory
    var now: int
    var script: seq<Turn>
    ghost var trace: seq<Exchange>
    ghost var store: StoreState  // what the memory holds
    ghost var Repr: set<object>

    ghost predicate Valid()
      reads this, Repr
    {
      && this in Repr && memory in Repr && memory.Repr() <= Repr && this !in memory.Repr()
      && memory.Valid() && memory.View() == store
    }

    constructor (memory: Memory, now: int, script: seq<Turn>)
      requires memory.Valid()
      ensures Valid() && fresh(Repr - memory.Repr())
      ensures State() == Setting(memory.View(), now, script, [])
    {
      this.memory, this.now, this.script, this.trace := memory, now, script, [];
      this.store, this.Repr := memory.View(), {this} + memory.Repr();
    }

    ghost function State(): Setting
      reads this
    {
      Setting(store, now, script, trace)
    }

    /** Makes one call. */
    method Exchange(call: Call) returns (r: Reply)
      requires Valid()
      modifies this, Repr
      ensures Valid() && fresh(Repr - old(Repr))
      ensures (State(), r) == Exchanged(old(State()), call)
    {
      hide Deliver, Interfere;
      if |script| == 0 {
        r := Fail(Cancelled);
      } else {
        var turn := script[0];
        script := script[1..];
        LetOthersAct(turn.others);
        now := now + turn.elapsed;
        if call.ToPort? {
          r := turn.reply;
        } else {
          r := Receive(turn.id, call.s, turn.delivery);
        }
      }
      trace := trace + [Solo.Exchange(call, r, now)];
    }

    /** A store call reaches the memory or does not, and so does its reply. */
    method Receive(id: string, call: StoreCall, delivery: Delivery) returns (r: Reply)
      requires Valid()
      modifies this`store, this`Repr, memory.Repr()
      ensures Valid() && fresh(Repr - old(Repr)) && fresh(memory.Repr() - old(memory.Repr()))
      ensures (store, r) == Deliver(old(store), now, id, call, delivery)
    {
      hide Apply;
      match delivery {
        case Refused(f) =>
          r := Fail(f);
        case Served =>
          r := Serve(id, call);
        case Lost(f) =>
          r := Serve(id, call);
          r := Fail(f);
      }
    }

    /** The memory carries out a store call. */
    method Serve(id: string, call: StoreCall) returns (r: Reply)
      requires Valid()
      modifies this`store, this`Repr, memory.Repr()
      ensures Valid() && fresh(Repr - old(Repr)) && fresh(memory.Repr() - old(memory.Repr()))
      ensures (store, r) == Apply(old(store), now, id, call)
    {
      hide Apply;
      r := memory.Serve(now, id, call);
      store, Repr := memory.View(), Repr + memory.Repr();
    }

    method LetOthersAct(others: seq<Foreign>)
      requires Valid()
      modifies this`store, this`now, this`Repr, memory.Repr()
      ensures Valid() && fresh(Repr - old(Repr)) && fresh(memory.Repr() - old(memory.Repr()))
      ensures (store, now) == Interfere(old(store), old(now), others)
    {
      hide Apply;
      for i := 0 to |others|
        invariant Valid() && fresh(Repr - old(Repr)) && fresh(memory.Repr() - old(memory.Repr()))
        invariant Interfere(store, now, others[i..]) == Interfere(old(store), old(now), others)
      {
        assert others[i..][1..] == others[i + 1..];
        now := now + others[i].elapsed;
        var _ := Serve(others[i].id, others[i].call);
      }
    }

    /** Reads the clock; some time may pass meanwhile. */
    method Now() returns (t: int)
      requires Valid()
      modifies this`now, this`script
      ensures Valid() && State() == Clocked(old(State())) && t == now
    {
      if |script| > 0 {
        now, script := now + script[0].elapsed, script[1..];
      }
      t := now;
    }

    /** Sleeps for at least `duration` unless the request is cancelled; others act meanwhile. */
    method Sleep(duration: nat) returns (cancelled: bool)
      requires Valid()
      modifies this, Repr
      ensures Valid() && fresh(Repr - old(Repr))
      ensures (State(), cancelled) == Slept(old(State()), duration)
    {
      if |script| == 0 || script[0].delivery.Refused? {
        return true;
      }
      var turn := script[0];
      script := script[1..];
      LetOthersAct(turn.others);
      now := now + duration + turn.elapsed;
      return false;
    }

    /** The choreography's next call, made for real. */
    method Do(call: Call, ghost wired: bool, ghost op: Op) returns (r: Reply, ghost next: Op)
      requires Valid() && !op.Done? && call == Request(op)
      modifies this, Repr
      ensures Valid() && fresh(Repr - old(Repr))
      ensures next == Resume(wired, op, r)
      ensures trace == old(trace) + [Solo.Exchange(call, r, now)]
      ensures Drive(wired, next, State()) == old(Drive(wired, op, State()))
    {
      r := Exchange(call);
      next := Resume(wired, op, r);
    }
  }

  datatype Attempted<T> = Ok(value: T) | Err(error: Error)

  /** The gate in front of every provider call. */
  method CheckBinding(loginMethod: LoginMethod, flow: Flow) returns (ok: bool)
    ensures ok == Permits(loginMethod, flow)
    ensures ok <==> MayDrive(loginMethod, flow)
  {
    PermitsMay(loginMethod, flow);
    var flows := PermittedFlows(loginMethod);
    for i := 0 to |flows|
      invariant flow !in flows[..i]
    {
      if flows[i] == flow {
        return true;
      }
    }
    return false;
  }

  /** Scans for the first document the provider marked ready. */
  method PickReady(documents: seq<DocRef>) returns (id: string)
    ensures id == ReadyDocID(documents)
    ensures IsPicked(documents, id)
  {
    PickedIsReady(documents);
    hide IsPicked;
    for i := 0 to |documents|
      invariant FirstReady(documents) == FirstReady(documents[i..])
    {
      assert documents[i..][1..] == documents[i + 1..];
      if documents[i].downloadURL != "" {
        return documents[i].documentID;
      }
    }
    if |documents| > 0 {
      return documents[0].documentID;
    }
    return "";
  }

  /** A container's data objects, as the files of a prepare request. */
  method Register(objects: seq<DataObject>) returns (files: seq<PrepareFile>)
    ensures files == FilesOf(objects)
    ensures SameFiles(files, objects)
  {
    files := [];
    for i := 0 to |objects|
      invariant files == FilesOf(objects)[..i]
    {
      files := files + [PrepareFile(objects[i].name, objects[i].contentHash, objects[i].algorithm)];
    }
    assert files == FilesOf(objects);
  }

  class Conductor {
    const io: Gateway
    const wired: bool  // an envelope service is attached

    constructor (io: Gateway, wired: bool)
      ensures this.io == io && this.wired == wired
    {
      this.io, this.wired := io, wired;
    }

    // ---- waiting for a chain ----

    /** Polls the lock once a second until the chain is free or the time is up. */
    method WaitChainFree(envelopeID: string, waitSeconds: int) returns (free: bool, failure: Option<Fault>)
      requires io.Valid()
      modifies io, io.Repr
      ensures io.Valid() && fresh(io.Repr - old(io.Repr))
      ensures (io.State(), free, failure) == old(WaitedFor(envelopeID, waitSeconds, io.State()))
      ensures Extends(old(io.State()), io.State())
      ensures var s := old(io.State());
              WaitStory(envelopeID, s.now + Ticks(s.script, 0) + Duration(waitSeconds), Rest(s.script),
                        Since(s, io.State()), free, failure)
    {
      hide Gateway.Valid, Exchanged, Clocked, Slept, WaitStory, Ticks;
      WaitEnds(envelopeID, waitSeconds, io.State());
      var start := io.Now();
      var deadline := start + Duration(waitSeconds);
      while true
        invariant io.Valid() && fresh(io.Repr - old(io.Repr))
        invariant Waited(envelopeID, deadline, io.State()) == old(WaitedFor(envelopeID, waitSeconds, io.State()))
        decreases |io.script|
      {
        ghost var head := io.State();
        var r := io.Exchange(ToStore(ChainLockStatus(envelopeID)));
        CheckUsesUp(head, envelopeID);
        if !r.LockState? {
          return false, Some(FaultOf(r));
        }
        if !r.locked {
          return true, None;
        }
        var now := io.Now();
        if now >= deadline {
          return false, None;
        }
        var cancelled := io.Sleep(SECOND);
        if cancelled {
          return false, Some(Cancelled);
        }
      }
    }

    // ---- Begin ----

    method Begin(input: BeginInput) returns (out: Outcome)
      requires io.Valid()
      modifies io, io.Repr
      ensures io.Valid() && fresh(io.Repr - old(io.Repr))
      ensures (io.State(), out) == old(Drive(wired, BeginOp(wired, input), io.State()))
      ensures Extends(old(io.State()), io.State())
      ensures BeginStory(wired, input, Since(old(io.State()), io.State()), out)
    {
      hide Drive, Exchanged, Gateway.Valid, Extends, Since, BeginStory;
      BeginTells(wired, input, io.State());
      DoneEnds(wired);
      if input.sigFormat != XAdES && input.sigFormat != PAdES {
        return Rejected(ErrUnsupportedFormat);
      }
      var permitted := CheckBinding(input.loginMethod, input.flow);
      if !permitted {
        return Rejected(ErrBindingMismatch);
      }
      ghost var op := BeginOp(wired, input);

      var resolved;
      resolved, op := ResolveDocument(input, op);
      if resolved.Err? {
        return Rejected(resolved.error);
      }
      out := BeginOn(input, resolved.value, op);
    }

    /** Begins a signing of the resolved document. */
    method BeginOn(input: BeginInput, signDocID: string, ghost start: Op) returns (out: Outcome)
      requires start == InBegin(input, BMeta(signDocID))
      requires io.Valid()
      modifies io, io.Repr
      ensures io.Valid() && fresh(io.Repr - old(io.Repr))
      ensures (io.State(), out) == old(Drive(wired, start, io.State()))
    {
      hide Drive, Exchanged, Gateway.Valid;
      DoneEnds(wired);
      ghost var op := start;
      var r;
      r, op := io.Do(ToPort(GetMetadata(signDocID, input.Obo())), wired, op);
      if !r.Meta? {
        return Rejected(Wrapped(FetchMetadata, FaultOf(r)));
      }
      var meta := r.meta;

      var sigFormat := input.sigFormat;
      match meta.kind {
        case Container => sigFormat := XAdES;
        case Pdf => sigFormat := PAdES;
        case OtherKind(_) =>
      }

      var acquired;
      acquired, op := Lock(input, signDocID, meta, sigFormat, op);
      if acquired.Err? {
        return Rejected(acquired.error);
      }
      var locked := acquired.value;

      var began;
      began, op := PrepareAndSave(input, signDocID, meta, sigFormat, op);
      if began.Ok? {
        locked := false;
        out := Began(began.value);
      } else {
        out := Rejected(began.error);
      }
      // The deferred release.
      if locked {
        r, op := io.Do(ToStore(ReleaseChainLock(input.envelopeID, input.slotID)), wired, op);
      }
    }

    /** PAdES on an envelope: one signer at a time. Says whether the lock was taken. */
    method Lock(input: BeginInput, docID: string, meta: Metadata, sigFormat: Format, ghost op: Op)
      returns (res: Attempted<bool>, ghost next: Op)
      requires sigFormat == FormatOf(input, meta)
      requires op == if TakesLock(input.envelopeID, sigFormat) then InBegin(input, BAcquire(docID, meta))
                     else BPrepareStart(input, docID, meta)
      requires io.Valid()
      modifies io, io.Repr
      ensures io.Valid() && fresh(io.Repr - old(io.Repr))
      ensures Drive(wired, next, io.State()) == old(Drive(wired, op, io.State()))
      ensures next == if res.Ok? then BPrepareStart(input, docID, meta) else Done(Rejected(res.error))
      ensures res.Ok? ==> res.value == TakesLock(input.envelopeID, sigFormat)
    {
      hide Drive, Exchanged, Gateway.Valid;
      next := op;
      if sigFormat == PAdES && input.envelopeID != "" {
        var r;
        r, next := io.Do(
          ToStore(AcquireChainLock(input.envelopeID, input.slotID, input.callerSub, SIGNING_LOCK_TTL_SECONDS)),
          wired, next);
        if !r.Granted? {
          return Err(Wrapped(AcquireLock, FaultOf(r))), next;
        }
        if !r.acquired {
          return Err(ErrSigningInProgress), next;
        }
        return Ok(true), next;
      }
      return Ok(false), next;
    }

    /** Which document to sign: the chain's current head, else its root; the client's own id only when
        there is no envelope. */
    method ResolveDocument(input: BeginInput, ghost op: Op) returns (res: Attempted<string>, ghost next: Op)
      requires op == InBegin(input, if wired && input.envelopeID != "" then BEnvelope else BMeta(input.documentID))
      requires io.Valid()
      modifies io, io.Repr
      ensures io.Valid() && fresh(io.Repr - old(io.Repr))
      ensures Drive(wired, next, io.State()) == old(Drive(wired, op, io.State()))
      ensures next == if res.Ok? then InBegin(input, BMeta(res.value)) else Done(Rejected(res.error))
    {
      hide Drive, Exchanged, Gateway.Valid;
      next := op;
      var signDocID, rootDocID := input.documentID, input.documentID;
      if wired && input.envelopeID != "" {
        var r;
        r, next := io.Do(ToPort(GetEnvelope(input.envelopeID, input.Obo())), wired, next);
        if r.EnvelopeView? && RootDocument(r.documents) != "" {
          rootDocID := RootDocument(r.documents);
        }
        r, next := io.Do(ToPort(CurrentHead(rootDocID, input.Obo())), wired, next);
        if !r.Head? {
          return Err(Wrapped(ResolveHead, FaultOf(r))), next;
        }
        signDocID := if r.headID != "" then r.headID else rootDocID;
      }
      return Ok(signDocID), next;
    }

    /** Everything Begin does while it may hold the lock. On an error the operation still owes the
        deferred release when it does hold it. */
    method PrepareAndSave(input: BeginInput, docID: string, meta: Metadata, sigFormat: Format, ghost op: Op)
      returns (res: Attempted<BeginResult>, ghost next: Op)
      requires op == BPrepareStart(input, docID, meta) && sigFormat == FormatOf(input, meta)
      requires io.Valid()
      modifies io, io.Repr
      ensures io.Valid() && fresh(io.Repr - old(io.Repr))
      ensures Drive(wired, next, io.State()) == old(Drive(wired, op, io.State()))
      ensures next == if res.Ok? then Done(Began(res.value)) else BFail(input, meta, res.error)
    {
      hide Drive, Exchanged, Gateway.Valid;
      var prepared;
      prepared, next := PrepareJob(input, docID, meta, sigFormat, op);
      if prepared.Err? {
        return Err(prepared.error), next;
      }
      var prep := prepared.value;

      var r;
      r, next := io.Do(
        ToStore(SaveJob(SaveJobInput(prep.jobID, input.envelopeID, input.slotID, input.flow, sigFormat,
                                     input.callerSub, prep.state, input.loginMethod, input.loA))),
        wired, next);
      if !r.Ack? {
        return Err(Wrapped(PersistJob, FaultOf(r))), next;
      }

      var digests := [];
      for i := 0 to |prep.documents|
        invariant digests == DigestsOf(prep.documents)[..i]
      {
        var d := prep.documents[i];
        digests := digests + [DigestOut(d.documentID, d.digest, d.digestAlgorithm)];
      }
      assert digests == DigestsOf(prep.documents);
      return Ok(BeginResult(prep.jobID, prep.state, prep.authorizeURL, prep.signAlgorithm, digests)), next;
    }

    /** Hands the document to the provider: its bytes for PAdES, otherwise hashes only. */
    method PrepareJob(input: BeginInput, docID: string, meta: Metadata, sigFormat: Format, ghost op: Op)
      returns (res: Attempted<PrepareResult>, ghost next: Op)
      requires op == BPrepareStart(input, docID, meta) && sigFormat == FormatOf(input, meta)
      requires io.Valid()
      modifies io, io.Repr
      ensures io.Valid() && fresh(io.Repr - old(io.Repr))
      ensures Drive(wired, next, io.State()) == old(Drive(wired, op, io.State()))
      ensures next == if res.Ok? then InBegin(input, BSave(meta, res.value)) else BFail(input, meta, res.error)
      ensures old(io.trace) <= io.trace
      ensures res.Ok? ==> PreparedBy(input, docID, meta, sigFormat, io.trace[|old(io.trace)|..], res.value)
    {
      hide Drive, Exchanged, Gateway.Valid, FormatOf, BFail, SendsBytes, SendsFiles, SendsHash;
      next := op;
      var prepDoc := PrepareDoc(docID, meta.filename, meta.mime, "", NoDigest, sigFormat, NoFile, []);
      var r;
      if sigFormat == PAdES {
        r, next := io.Do(ToPort(Content(docID, input.Obo())), wired, next);
        if !r.Blob? {
          return Err(Wrapped(FetchBytes, FaultOf(r))), next;
        }
        prepDoc := prepDoc.(fileRef := File0);
        SendingBytes(input, docID, meta, r.bytes);
        r, next := io.Do(ToPort(PrepareWithFile(input.flow, prepDoc, r.bytes, input.opts)), wired, next);
      } else {
        if meta.kind == Container {
          r, next := io.Do(ToPort(DataObjects(docID, input.Obo())), wired, next);
          if !r.Objects? {
            return Err(Wrapped(FetchObjects, FaultOf(r))), next;
          }
          var files := Register(r.objects);
          prepDoc := prepDoc.(files := files);
          SendingFiles(input, docID, meta, r.objects);
        } else {
          prepDoc := prepDoc.(documentHash := meta.contentHash, digestAlgorithm := SHA_256);
          SendingHash(input, docID, meta);
        }
        r, next := io.Do(ToPort(Prepare(input.flow, prepDoc, input.opts)), wired, next);
      }
      if !r.Prepared? {
        return Err(Wrapped(Stage.PrepareJob, FaultOf(r))), next;
      }
      return Ok(r.prep), next;
    }

    // ---- Reconcile ----

    method Reconcile(jobID: string, wait: int, caller: string, token: string) returns (out: Outcome)
      requires io.Valid()
      modifies io, io.Repr
      ensures io.Valid() && fresh(io.Repr - old(io.Repr))
      ensures (io.State(), out) == old(Drive(wired, ReconcileOp(jobID, wait, caller, token), io.State()))
      ensures Extends(old(io.State()), io.State())
      ensures PollStory(wired, jobID, wait, caller, token, Since(old(io.State()), io.State()), out)
    {
      hide Drive, Exchanged, Gateway.Valid, Extends, Since, PollStory;
      PollTells(wired, jobID, wait, caller, token, io.State());
      DoneEnds(wired);
      ghost var op := ReconcileOp(jobID, wait, caller, token);
      var r;
      r, op := io.Do(ToStore(GetJob(jobID)), wired, op);
      if !r.JobRow? {
        return Rejected(Plain(FaultOf(r)));
      }
      var job := r.job;
      if caller != "" && job.callerSub != caller {
        return Rejected(ErrForbidden);
      }
      if job.state == COMPLETED || job.state == FAILED {
        return Signing(BareStatus(jobID, job.state));
      }
      r, op := io.Do(ToPort(Status(jobID, wait)), wired, op);
      if !r.Provider? {
        return Rejected(Wrapped(ProviderStatus, FaultOf(r)));
      }
      var st := r.status;
      r, op := io.Do(ToStore(ReconcileJob(jobID, st.state)), wired, op);
      if !r.Ack? {
        return Rejected(Wrapped(ReconcileState, FaultOf(r)));
      }
      out := Act(jobID, job, st, token, op);
    }

    /** What a poll does once the provider's state is noted. */
    method Act(jobID: string, job: Job, st: StatusResult, token: string, ghost op: Op) returns (out: Outcome)
      requires op == ResumeReconcile(jobID, RNote(job, token, st), Ack)
      requires io.Valid()
      modifies io, io.Repr
      ensures io.Valid() && fresh(io.Repr - old(io.Repr))
      ensures (io.State(), out) == old(Drive(wired, op, io.State()))
    {
      hide Drive, Exchanged, Gateway.Valid;
      DoneEnds(wired);
      match st.state
      case READY =>
        out := Finalize(job, st, token, op);
      case FAILED =>
        out := Signing(BareStatus(jobID, FAILED));
      case _ =>
        if job.sigFormat == PAdES && job.envelopeID != "" {
          var _, _ := io.Do(
            ToStore(AcquireChainLock(job.envelopeID, job.slotID, job.callerSub, SIGNING_LOCK_TTL_SECONDS)), wired, op);
        }
        out := Signing(PendingStatus(jobID, st));
    }

    method Finalize(job: Job, st: StatusResult, token: string, ghost op: Op) returns (out: Outcome)
      requires op == FinalizeOp(job, st, token)
      requires io.Valid()
      modifies io, io.Repr
      ensures io.Valid() && fresh(io.Repr - old(io.Repr))
      ensures (io.State(), out) == old(Drive(wired, op, io.State()))
      ensures Extends(old(io.State()), io.State())
      ensures FinalizeStory(wired, job, st.documents, token, Since(old(io.State()), io.State()), out)
    {
      hide Drive, Exchanged, Gateway.Valid, Extends, Since, FinalizeStory;
      FinalizeTells(wired, job, st, token, io.State());
      DoneEnds(wired);
      var docID := PickReady(st.documents);
      if docID == "" {
        return Rejected(ErrProviderState);
      }
      var stored;
      ghost var next;
      if job.sigFormat == PAdES {
        stored, next := StorePdfArtifact(job, token, docID, op);
      } else {
        stored, next := MergeContainer(job, token, docID, op);
      }
      if stored.Err? {
        return Rejected(stored.error);
      }
      out := Record(job, token, stored.value, next);
    }

    /** PAdES: the signed PDF is stored as it is, and a lost race is final. */
    method StorePdfArtifact(job: Job, token: string, docID: string, ghost op: Op)
      returns (res: Attempted<string>, ghost next: Op)
      requires job.sigFormat == PAdES && op == InFinalize(job, token, FDownload(docID))
      requires io.Valid()
      modifies io, io.Repr
      ensures io.Valid() && fresh(io.Repr - old(io.Repr))
      ensures Drive(wired, next, io.State()) == old(Drive(wired, op, io.State()))
      ensures next == if res.Ok? then InFinalize(job, token, FInsert(res.value)) else Done(Rejected(res.error))
    {
      hide Drive, Exchanged, Gateway.Valid;
      var obo := OnBehalf(job.callerSub, token);
      var r;
      r, next := io.Do(ToPort(Download(job.jobID, docID, PAdES)), wired, op);
      if !r.Blob? {
        return Err(Wrapped(DownloadArtifact, FaultOf(r))), next;
      }
      var signed := r.bytes;
      r, next := io.Do(ToPort(GetMetadata(docID, obo)), wired, next);
      if !r.Meta? {
        return Err(Wrapped(FetchMetadata, FaultOf(r))), next;
      }
      r, next := io.Do(
        ToPort(StoreSignedDocument(docID, signed, ApplicationPdf, r.meta.filename, obo)), wired, next);
      if !r.NewId? {
        if IsChainAdvanced(r) {
          return Err(ErrChainAdvanced), next;
        }
        return Err(Wrapped(StorePdf, FaultOf(r))), next;
      }
      return Ok(r.id), next;
    }

    /** XAdES: a merge refused by the keep-latest CAS is submitted again, a few times. */
    method MergeContainer(job: Job, token: string, docID: string, ghost op: Op)
      returns (res: Attempted<string>, ghost next: Op)
      requires job.sigFormat != PAdES && op == InFinalize(job, token, FDownload(docID))
      requires io.Valid()
      modifies io, io.Repr
      ensures io.Valid() && fresh(io.Repr - old(io.Repr))
      ensures Drive(wired, next, io.State()) == old(Drive(wired, op, io.State()))
      ensures next == if res.Ok? then InFinalize(job, token, FInsert(res.value)) else Done(Rejected(res.error))
    {
      hide Drive, Exchanged, Gateway.Valid;
      var r;
      r, next := io.Do(ToPort(Download(job.jobID, docID, XAdES)), wired, op);
      if !r.Blob? {
        return Err(Wrapped(DownloadArtifact, FaultOf(r))), next;
      }
      var fileless := r.bytes;
      var attempt := 0;
      while true
        invariant 0 <= attempt <= MAX_CO_SIGN_RETRIES
        invariant next == InFinalize(job, token, FComplete(docID, fileless, attempt))
        invariant io.Valid() && fresh(io.Repr - old(io.Repr))
        invariant Drive(wired, next, io.State()) == old(Drive(wired, op, io.State()))
        decreases MAX_CO_SIGN_RETRIES - attempt
      {
        r, next := io.Do(ToPort(Complete(docID, fileless, OnBehalf(job.callerSub, token))), wired, next);
        if !IsChainAdvanced(r) || attempt >= MAX_CO_SIGN_RETRIES {
          break;
        }
        attempt := attempt + 1;
      }
      if !r.NewId? {
        if IsChainAdvanced(r) {
          return Err(ErrChainAdvanced), next;
        }
        return Err(Wrapped(CompleteContainer, FaultOf(r))), next;
      }
      return Ok(r.id), next;
    }

    /** Records the signature, makes the job terminal, and only then does what is best-effort. */
    method Record(job: Job, token: string, ref: string, ghost op: Op) returns (out: Outcome)
      requires op == InFinalize(job, token, FInsert(ref))
      requires io.Valid()
      modifies io, io.Repr
      ensures io.Valid() && fresh(io.Repr - old(io.Repr))
      ensures (io.State(), out) == old(Drive(wired, op, io.State()))
    {
      hide Drive, Exchanged, Gateway.Valid;
      DoneEnds(wired);
      var r;
      ghost var next;
      r, next := io.Do(
        ToStore(InsertSignature(SignatureInput(job.jobID, job.envelopeID, job.slotID, job.flow, job.sigFormat, "",
                                               ref, "", "", Unspecified, false, job.loginMethod, job.loA))),
        wired, op);
      if !r.NewId? {
        return Rejected(Wrapped(RecordSignature, FaultOf(r)));
      }
      var sigID := r.id;
      r, next := io.Do(ToStore(ReconcileJob(job.jobID, COMPLETED)), wired, next);
      if !r.Ack? {
        return Rejected(Wrapped(MarkCompleted, FaultOf(r)));
      }
      if job.sigFormat == PAdES && job.envelopeID != "" {
        r, next := io.Do(ToStore(ReleaseChainLock(job.envelopeID, job.slotID)), wired, next);
      }
      out := FinishUp(job, token, ref, sigID, next);
    }

    /** The best-effort end of a pass whose signature is durable. */
    method FinishUp(job: Job, token: string, ref: string, sigID: string, ghost op: Op) returns (out: Outcome)
      requires op == AfterRelease(wired, job, token, ref, sigID)
      requires io.Valid()
      modifies io, io.Repr
      ensures io.Valid() && fresh(io.Repr - old(io.Repr))
      ensures (io.State(), out) == old(Drive(wired, op, io.State()))
    {
      hide Drive, Exchanged, Gateway.Valid;
      DoneEnds(wired);
      var status := CompletedStatus(job, ref, sigID);
      ghost var next := NotifySlotSigned(job, token, ref, sigID, op);
      var v := Validation(sigID, ref, job.sigFormat, OnBehalf(job.callerSub, token), AtSigning(status));
      var res;
      res, next := RunValidation(v, next);
      if res.Ok? {
        status := status.(validation := Some(res.value));
      }
      out := Signing(status);
    }

    method NotifySlotSigned(job: Job, token: string, ref: string, sigID: string, ghost op: Op) returns (ghost next: Op)
      requires op == AfterRelease(wired, job, token, ref, sigID)
      requires io.Valid()
      modifies io, io.Repr
      ensures io.Valid() && fresh(io.Repr - old(io.Repr))
      ensures Drive(wired, next, io.State()) == old(Drive(wired, op, io.State()))
      ensures next == AfterNotify(job, token, ref, sigID)
    {
      hide Drive, Exchanged, Gateway.Valid;
      next := op;
      if !wired {
        return;
      }
      var attempt := 1;
      while attempt <= NOTIFY_ATTEMPTS
        invariant 1 <= attempt <= NOTIFY_ATTEMPTS + 1
        invariant next == if attempt <= NOTIFY_ATTEMPTS then InFinalize(job, token, FNotify(ref, sigID, attempt))
                          else AfterNotify(job, token, ref, sigID)
        invariant io.Valid() && fresh(io.Repr - old(io.Repr))
        invariant Drive(wired, next, io.State()) == old(Drive(wired, op, io.State()))
      {
        var r;
        r, next := io.Do(ToPort(MarkSlotSigned(job.envelopeID, job.slotID, sigID, ref, job.jobID)), wired, next);
        if r.Ack? {
          return;
        }
        attempt := attempt + 1;
      }
    }

    // ---- validation ----

    method RunValidation(v: Validation, ghost op: Op) returns (res: Attempted<ValidationResult>, ghost next: Op)
      requires op == InValidation(v, VContent)
      requires io.Valid()
      modifies io, io.Repr
      ensures io.Valid() && fresh(io.Repr - old(io.Repr))
      ensures Drive(wired, next, io.State()) == old(Drive(wired, op, io.State()))
      ensures next == Done(if res.Ok? then ValidationDone(v, res.value) else ValidationFailed(v, res.error))
    {
      hide Drive, Exchanged, Gateway.Valid;
      var asked;
      asked, next := AskForAnswer(v, op);
      if asked.Err? {
        return Err(asked.error), next;
      }
      var answer := asked.value;
      var r;
      r, next := io.Do(
        ToStore(StoreReport(ReportInput(v.sigID, answer.verdict, answer.format, answer.level, answer.details, ""))),
        wired, next);
      if !r.NewId? {
        return Err(Wrapped(PersistReport, FaultOf(r))), next;
      }
      var result := ValidationResult(answer, r.id);
      r, next := io.Do(ToStore(RecordValidation(v.sigID, result.reportID, answer.pass, answer.level)), wired, next);
      if !r.Ack? {
        return Err(Wrapped(LinkReport, FaultOf(r))), next;
      }
      return Ok(result), next;
    }

    /** The artifact's bytes, the provider's report on them, and the answer it comes down to. */
    method AskForAnswer(v: Validation, ghost op: Op) returns (res: Attempted<Answer>, ghost next: Op)
      requires op == InValidation(v, VContent)
      requires io.Valid()
      modifies io, io.Repr
      ensures io.Valid() && fresh(io.Repr - old(io.Repr))
      ensures Drive(wired, next, io.State()) == old(Drive(wired, op, io.State()))
      ensures next == if res.Ok? then InValidation(v, VStore(res.value)) else Done(ValidationFailed(v, res.error))
    {
      hide Drive, Exchanged, Gateway.Valid;
      var r;
      r, next := io.Do(ToPort(Content(v.containerID, v.obo)), wired, op);
      if !r.Blob? {
        return Err(Wrapped(FetchContainer, FaultOf(r))), next;
      }
      r, next := io.Do(ToPort(PortCall.Validate(r.bytes, ValidationFilename(v.sigFormat))), wired, next);
      if !r.Report? {
        return Err(Wrapped(ValidateContainer, FaultOf(r))), next;
      }
      r, next := io.Do(ToPort(NormalizeReport(r.report)), wired, next);
      if !r.Normalized? {
        return Err(Plain(FaultOf(r))), next;
      }
      return Ok(r.answer), next;
    }

    method Validate(sigID: string, caller: string, token: string) returns (out: Outcome)
      requires io.Valid()
      modifies io, io.Repr
      ensures io.Valid() && fresh(io.Repr - old(io.Repr))
      ensures (io.State(), out) == old(Drive(wired, ValidateOp(sigID, caller, token), io.State()))
      ensures Extends(old(io.State()), io.State())
      ensures ValidateStory(sigID, caller, token, Since(old(io.State()), io.State()), out)
    {
      hide Drive, Exchanged, Gateway.Valid, Extends, Since, ValidateStory;
      ValidateTells(wired, sigID, caller, token, io.State());
      DoneEnds(wired);
      ghost var op := ValidateOp(sigID, caller, token);
      var r;
      r, op := io.Do(ToStore(GetSignature(sigID)), wired, op);
      if !r.SignatureRow? {
        return Rejected(Plain(FaultOf(r)));
      }
      var sig := r.sig;
      r, op := io.Do(ToStore(GetJob(sig.jobID)), wired, op);
      if !r.JobRow? {
        return Rejected(Plain(FaultOf(r)));
      }
      var job := r.job;
      if caller != "" && job.callerSub != caller {
        return Rejected(ErrForbidden);
      }
      if sig.signedDocumentRef == "" {
        return Rejected(ErrProviderState);
      }
      var v := Validation(sigID, sig.signedDocumentRef, job.sigFormat, OnBehalf(job.callerSub, token), OnDemand(sig));
      var res;
      res, op := RunValidation(v, op);
      out := if res.Ok? then Validated(sig, res.value) else Rejected(res.error);
    }

    // ---- Abandon and SubmitClientSignature ----

    method Abandon(jobID: string, caller: string) returns (out: Outcome)
      requires io.Valid()
      modifies io, io.Repr
      ensures io.Valid() && fresh(io.Repr - old(io.Repr))
      ensures (io.State(), out) == old(Drive(wired, AbandonOp(jobID, caller), io.State()))
      ensures Extends(old(io.State()), io.State())
      ensures AbandonStory(jobID, caller, Since(old(io.State()), io.State()), out)
    {
      hide Drive, Exchanged, Gateway.Valid, Extends, Since, AbandonStory;
      AbandonTells(wired, jobID, caller, io.State());
      DoneEnds(wired);
      ghost var op := AbandonOp(jobID, caller);
      var r;
      r, op := io.Do(ToStore(GetJob(jobID)), wired, op);
      if !r.JobRow? {
        return Rejected(Plain(FaultOf(r)));
      }
      var job := r.job;
      if caller != "" && job.callerSub != caller {
        return Rejected(ErrForbidden);
      }
      if job.sigFormat == PAdES && job.envelopeID != "" {
        r, op := io.Do(ToStore(ReleaseChainLock(job.envelopeID, job.slotID)), wired, op);
      }
      out := Outcome.Abandoned;
    }

    method SubmitClientSignature(jobID: string, sigs: seq<ClientSignature>, caller: string) returns (out: Outcome)
      requires io.Valid()
      modifies io, io.Repr
      ensures io.Valid() && fresh(io.Repr - old(io.Repr))
      ensures (io.State(), out) == old(Drive(wired, SubmitOp(jobID, sigs, caller), io.State()))
      ensures Extends(old(io.State()), io.State())
      ensures SubmitStory(jobID, sigs, caller, Since(old(io.State()), io.State()), out)
    {
      hide Drive, Exchanged, Gateway.Valid, Extends, Since, SubmitStory;
      SubmitTells(wired, jobID, sigs, caller, io.State());
      DoneEnds(wired);
      ghost var op := SubmitOp(jobID, sigs, caller);
      var r;
      r, op := io.Do(ToStore(GetJob(jobID)), wired, op);
      if !r.JobRow? {
        return Rejected(Plain(FaultOf(r)));
      }
      if caller != "" && r.job.callerSub != caller {
        return Rejected(ErrForbidden);
      }
      r, op := io.Do(ToPort(Submit(jobID, sigs)), wired, op);
      if !r.Provider? {
        return Rejected(Wrapped(SubmitSignature, FaultOf(r)));
      }
      var state := r.status.state;
      r, op := io.Do(ToStore(ReconcileJob(jobID, state)), wired, op);
      if !r.Ack? {
        return Rejected(Wrapped(ReconcileState, FaultOf(r)));
      }
      out := Signing(BareStatus(jobID, state));
    }
  }
}
