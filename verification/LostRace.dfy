/** What becomes of a PAdES signing once somebody else has signed its document: over whole runs, every poll of it ends
    without a signature, however it is interleaved with everything else. */
module LostRaces {
  import opened Protocol
  import opened StoreSpec
  import opened Choreography
  import opened Worlds
  import opened Invariants
  import opened Reachable
  import opened Steps
  import opened Layers
  import opened Guarantees

  /** A poll of the job, from its first look at the job on. */
  predicate Polls(op: Op, j: string) {
    match op
    case InReconcile(jobID, _) => jobID == j
    case InFinalize(job, _, _) => job.jobID == j
    case _ => false
  }

  /** An answer that names no signature and no signed document. */
  predicate Unsigned(out: Outcome) {
    out.Rejected? || (out.Signing? && out.status.signatureID == "" && out.status.containerID == "")
  }

  /** The CAS refused the signed PDF. */
  predicate RefusedAtStore(op: Op, r: Reply) {
    op.InFinalize? && op.f.FStore? && IsChainAdvanced(r)
  }

  /** A finalizing pass over a superseded signing has not got past storing its PDF. */
  lemma NotPastStore(w: World, op: Op, j: string)
    requires EnvOK(w.env) && OpsOK(w) && OpOK(w, op) && op.InFinalize? && op.job.jobID == j
    requires (exists id :: id in w.ops && w.ops[id] == op) && Superseded(w.env, j) && !PdfAccepted(w.env, j)
    ensures op.f.FDownload? || op.f.FMeta? || op.f.FStore?
    ensures op.job.sigFormat == PAdES
  {
    NothingUnaccepted(w, j);
    hide EnvOK, OpsOK, Superseded, PdfAccepted, Landed;
  }

  /** One answer to a poll of a superseded signing. */
  lemma PollStep(w: World, id: nat, a: Answering, j: string)
    requires WorldOK(w) && w.env.echoes && Enabled(w, Serve(id, a))
    requires Superseded(w.env, j) && Polls(w.ops[id], j)
    ensures var op := w.ops[id];
            var r := ReplyTo(w.env, Request(op), a);
            var next := Resume(w.wired, op, r);
            && (next.Done? ==>
                  && Unsigned(next.outcome) && (op.InFinalize? ==> next.outcome.Rejected?)
                  && (next.outcome == Rejected(ErrChainAdvanced) <==> RefusedAtStore(op, r)))
            && (!next.Done? ==> Polls(next, j) && (op.InFinalize? ==> next.InFinalize?))
  {
    var op := w.ops[id];
    assert OpOK(w, op) && !PdfAccepted(w.env, j);
    hide OpOK, Superseded, PdfAccepted, PortAllows, EnvOK, EvidenceOK, LinksOK, PdfOnce, LocksOK;
    hide Resume, Request, ReplyTo, Unsigned, RefusedAtStore, Polls;
    PollIsPoll(op, j);
    if op.InFinalize? {
      NotPastStore(w, op, j);
      if op.f.FStore? {
        StoreRefused(w, op, a, j);
      }
      PassOfLoser(w.wired, op, ReplyTo(w.env, Request(op), a), j);
    } else {
      PollOfOther(w, op, ReplyTo(w.env, Request(op), a), j);
    }
  }

  lemma PollIsPoll(op: Op, j: string)
    requires Polls(op, j)
    ensures op.InReconcile? || (op.InFinalize? && op.job.jobID == j)
  {
  }

  lemma PassOfLoser(wired: bool, op: Op, r: Reply, j: string)
    requires op.InFinalize? && op.job.jobID == j && op.job.sigFormat == PAdES
    requires op.f.FDownload? || op.f.FMeta? || (op.f.FStore? && r.Fail?)
    ensures var next := Resume(wired, op, r);
            && (next.Done? ==>
                  && Unsigned(next.outcome) && next.outcome.Rejected?
                  && (next.outcome == Rejected(ErrChainAdvanced) <==> RefusedAtStore(op, r)))
            && (!next.Done? ==> Polls(next, j) && next.InFinalize?)
  {
  }

  lemma PollOfOther(w: World, op: Op, r: Reply, j: string)
    requires op.InReconcile? && Polls(op, j) && OpOK(w, op)
    ensures var next := Resume(w.wired, op, r);
            && (next.Done? ==>
                  Unsigned(next.outcome) && next.outcome != Rejected(ErrChainAdvanced) && !RefusedAtStore(op, r))
            && (!next.Done? ==> Polls(next, j))
  {
  }

  lemma StoreRefused(w: World, op: Op, a: Answering, j: string)
    requires EnvOK(w.env) && w.env.echoes && OpOK(w, op) && op.InFinalize? && op.f.FStore? && op.job.jobID == j
    requires Superseded(w.env, j) && Answerable(w.env, Request(op), a)
    ensures ReplyTo(w.env, Request(op), a).Fail?
    ensures Effect(w.env, Request(op), a) == w.env
  {
    RefusedWhenSuperseded(w.env, j);
    hide EnvOK, Superseded, AcceptsPdf;
  }

  /** However a run goes on, a poll of a superseded signing that returns brings no signature: a pass that got to
      finalizing is rejected, with ErrChainAdvanced exactly when it got as far as storing its PDF and was refused with
      409; any other answer names neither a signature nor a document. */
  lemma {:induction false} SupersededPollFails(w: World, ls: seq<Label>, id: nat, j: string)
    requires Reached(w) && w.env.echoes && Legal(w, ls)
    requires Superseded(w.env, j) && id in w.ops && Polls(w.ops[id], j)
    ensures Returned(w, ls, id).Some? ==>
              var ret := Returned(w, ls, id).value;
              && Unsigned(ret.outcome)
              && (ret.last.InFinalize? ==> ret.outcome.Rejected?)
              && (ret.outcome == Rejected(ErrChainAdvanced) <==> RefusedAtStore(ret.last, ret.reply))
  {
    ReachedOK(w);
    PollsFail(w, ls, id, j);
  }

  lemma {:induction false} PollsFail(w: World, ls: seq<Label>, id: nat, j: string)
    requires WorldOK(w) && w.env.echoes && Legal(w, ls)
    requires Superseded(w.env, j) && id in w.ops && Polls(w.ops[id], j)
    ensures Returned(w, ls, id).Some? ==>
              var ret := Returned(w, ls, id).value;
              && Unsigned(ret.outcome)
              && (ret.last.InFinalize? ==> ret.outcome.Rejected?)
              && (ret.outcome == Rejected(ErrChainAdvanced) <==> RefusedAtStore(ret.last, ret.reply))
    decreases |ls|
  {
    hide WorldOK, Superseded, Next, Resume, Request, ReplyTo, Unsigned, RefusedAtStore;
    if |ls| > 0 && ls[0] != Crash(id) {
      var l, v := ls[0], Next(w, ls[0]);
      StaysSuperseded(w, l, j);
      if l.Serve? && l.id == id {
        PollStep(w, id, l.a, j);
        MyOp(w, id, l.a);
      } else {
        OthersStep(w, l, id);
      }
      if id in v.ops && Polls(v.ops[id], j) {
        PollsFail(v, ls[1..], id, j);
      }
    }
  }

  lemma MyOp(w: World, id: nat, a: Answering)
    requires Enabled(w, Serve(id, a))
    ensures var next := Resumed(w, id, a);
            !next.Done? ==> id in Next(w, Serve(id, a)).ops && Next(w, Serve(id, a)).ops[id] == next
  {
    hide Resume, ReplyTo, Request;
  }

  lemma StaysSuperseded(w: World, l: Label, j: string)
    requires WorldOK(w) && w.env.echoes && Enabled(w, l) && Superseded(w.env, j)
    ensures var v := Next(w, l); WorldOK(v) && v.env.echoes && Superseded(v.env, j)
  {
    StepKeeps(w, l);
    hide Next, Enabled, Superseded, EnvOK;
    var v := Next(w, l);
    assert DocsOK(v.env) by {
      DocsOfWorld(v);
    }
    assert v.env.echoes == w.env.echoes;
    hide Grows, WorldOK;
    SupersededIsNeverAccepted(w.env, v.env, j);
  }

  lemma DocsOfWorld(v: World)
    requires WorldOK(v)
    ensures DocsOK(v.env)
  {
  }
}
