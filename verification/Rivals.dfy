/** Why the merge is tried four times: a chain with at most four signers cannot exhaust the tries, if the document
    service refuses a try only because somebody else has signed since the one before. */
module Rivals {
  import opened Protocol
  import opened StoreSpec
  import opened Choreography
  import opened Worlds
  import opened Invariants
  import opened Reachable
  import opened Steps
  import opened Layers
  import opened BestEffort
  import opened Guarantees

  /** The jobs whose signatures were committed. */
  function Signers(commits: seq<Commit>): set<string> {
    set c | c in commits && !c.RefreshCommit? :: c.jobID
  }

  /** Somebody other than j who had not signed among the first `seen` commits has signed since. */
  predicate NewRival(commits: seq<Commit>, seen: nat, j: string)
    requires seen <= |commits|
  {
    !(Signers(commits) - {j} <= Signers(commits[..seen]))
  }

  /** In this run, whenever a merge of operation `id` is refused by the CAS, a rival has signed the chain since the
      operation's call before that one; `seen` is how many commits the chain had then. */
  ghost predicate RefusedForRivals(w: World, ls: seq<Label>, id: nat, root: string, seen: nat)
    requires Legal(w, ls)
    decreases |ls|
  {
    |ls| > 0 && ls[0] != Crash(id) ==>
      var v := Next(w, ls[0]);
      if ls[0].Serve? && ls[0].id == id then
        && (Refused(w, id, ls[0].a) ==>
              seen <= |CommitsOn(w.env, root)| && NewRival(CommitsOn(w.env, root), seen, w.ops[id].job.jobID))
        && RefusedForRivals(v, ls[1..], id, root, |CommitsOn(v.env, root)|)
      else RefusedForRivals(v, ls[1..], id, root, seen)
  }

  /** The operation's merge is refused by the CAS. */
  predicate Refused(w: World, id: nat, a: Answering)
    requires Enabled(w, Serve(id, a))
  {
    w.ops[id].InFinalize? && w.ops[id].f.FComplete? && IsChainAdvanced(ReplyTo(w.env, Request(w.ops[id]), a))
  }

  lemma {:induction false} SubsetSize(a: set<string>, b: set<string>)
    requires a <= b
    ensures |a| <= |b|
    ensures a != b ==> |a| < |b|
  {
    if a == {} {
      assert b != {} ==> |b| > 0;
    } else {
      var x :| x in a;
      SubsetSize(a - {x}, b - {x});
    }
  }

  lemma SignersGrow(a: seq<Commit>, b: seq<Commit>, j: string)
    requires a <= b
    ensures Signers(a) <= Signers(b) && |Signers(a) - {j}| <= |Signers(b) - {j}|
  {
    forall c | c in a ensures c in b {
      var i :| 0 <= i < |a| && a[i] == c;
      assert b[i] == c;
    }
    SubsetSize(Signers(a) - {j}, Signers(b) - {j});
  }

  /** A rival more. */
  lemma OneRivalMore(commits: seq<Commit>, seen: nat, j: string)
    requires seen <= |commits| && NewRival(commits, seen, j)
    ensures |Signers(commits) - {j}| > |Signers(commits[..seen]) - {j}|
  {
    SignersGrow(commits[..seen], commits, j);
    SubsetSize(Signers(commits[..seen]) - {j}, Signers(commits) - {j});
  }

  lemma ChainGoesOn(w: World, ls: seq<Label>, root: string)
    requires WorldOK(w) && Legal(w, ls)
    ensures CommitsOn(w.env, root) <= CommitsOn(Play(w, ls).env, root)
  {
    RunKeeps(w, ls);
    hide WorldOK, Legal, Play;
    if root in w.env.chains {
      assert ChainGrows(w.env.chains[root], Play(w, ls).env.chains[root]);
    }
  }

  /** A pass whose artifact is stored does not return ErrChainAdvanced any more. */
  lemma {:induction false} StoredPassReturns(w: World, ls: seq<Label>, id: nat)
    requires Legal(w, ls) && id in w.ops && Stored(w.ops[id])
    ensures Returned(w, ls, id).Some? ==> Returned(w, ls, id).value.outcome != Rejected(ErrChainAdvanced)
    decreases |ls|
  {
    hide Next, Resume, Request, ReplyTo, Stored;
    if |ls| > 0 && ls[0] != Crash(id) {
      var l, v := ls[0], Next(w, ls[0]);
      if l.Serve? && l.id == id {
        StoredStays(w.wired, w.ops[id], ReplyTo(w.env, Request(w.ops[id]), l.a));
        OwnStep(w, id, l.a);
        StoredDone(Resumed(w, id, l.a));
      } else {
        OthersStep(w, l, id);
      }
      if id in v.ops && Stored(v.ops[id]) {
        StoredPassReturns(v, ls[1..], id);
      }
    }
  }

  lemma StoredDone(op: Op)
    requires Stored(op)
    ensures op.Done? ==> op.outcome != Rejected(ErrChainAdvanced)
  {
  }

  lemma OwnStep(w: World, id: nat, a: Answering)
    requires Enabled(w, Serve(id, a))
    ensures var next := Resumed(w, id, a);
            !next.Done? ==> id in Next(w, Serve(id, a)).ops && Next(w, Serve(id, a)).ops[id] == next
  {
    hide Resume, ReplyTo, Request;
  }

  /** What one answer makes of a merge. */
  lemma MergeAnswered(wired: bool, op: Op, r: Reply)
    requires op.InFinalize? && op.f.FComplete?
    ensures var next := Resume(wired, op, r);
            && (!IsChainAdvanced(r) ==> Stored(next))
            && (IsChainAdvanced(r) && op.f.attempt < MAX_CO_SIGN_RETRIES ==>
                  next == InFinalize(op.job, op.token, FComplete(op.f.docID, op.f.fileless, op.f.attempt + 1)))
            && (IsChainAdvanced(r) && op.f.attempt >= MAX_CO_SIGN_RETRIES ==> next == Done(Rejected(ErrChainAdvanced)))
  {
  }

  /** A run as its first step and the rest. */
  lemma FirstStep(w: World, ls: seq<Label>, id: nat, root: string, seen: nat)
    requires Legal(w, ls) && |ls| > 0 && ls[0] != Crash(id)
    ensures var v := Next(w, ls[0]);
            && Enabled(w, ls[0]) && Legal(v, ls[1..]) && Play(w, ls) == Play(v, ls[1..])
            && var mine := ls[0].Serve? && ls[0].id == id;
            && (Returned(w, ls, id) ==
                  if mine && Resumed(w, id, ls[0].a).Done? then
                    Some(Return(w.ops[id], ReplyTo(w.env, Request(w.ops[id]), ls[0].a), Resumed(w, id, ls[0].a).outcome,
                                v.env.store, v.env.now))
                  else Returned(v, ls[1..], id))
            && (RefusedForRivals(w, ls, id, root, seen) && mine ==>
                  && (Refused(w, id, ls[0].a) ==>
                        && seen <= |CommitsOn(w.env, root)|
                        && NewRival(CommitsOn(w.env, root), seen, w.ops[id].job.jobID))
                  && RefusedForRivals(v, ls[1..], id, root, |CommitsOn(v.env, root)|))
            && (RefusedForRivals(w, ls, id, root, seen) && !mine ==> RefusedForRivals(v, ls[1..], id, root, seen))
  {
    hide Next, Enabled, Resume, ReplyTo, Request;
  }

  /** Every refusal so far has cost a rival. */
  lemma {:induction false} RefusalsCostRivals(w: World, ls: seq<Label>, id: nat, root: string, seen: nat)
    requires WorldOK(w) && Legal(w, ls) && id in w.ops && w.ops[id].InFinalize? && w.ops[id].f.FComplete?
    requires w.ops[id].f.attempt <= MAX_CO_SIGN_RETRIES
    requires seen <= |CommitsOn(w.env, root)| && RefusedForRivals(w, ls, id, root, seen)
    requires |Signers(CommitsOn(w.env, root)[..seen]) - {w.ops[id].job.jobID}| >= w.ops[id].f.attempt
    ensures Returned(w, ls, id).Some? && Returned(w, ls, id).value.outcome == Rejected(ErrChainAdvanced) ==>
              |Signers(CommitsOn(Play(w, ls).env, root)) - {w.ops[id].job.jobID}| >= 4
    decreases |ls|
  {
    hide Legal, Play, Returned, RefusedForRivals, Next, Enabled, Resume, Request, ReplyTo, CommitsOn, Signers, NewRival;
    hide WorldOK, WorldGrows, Refused, Stored;
    if |ls| == 0 || ls[0] == Crash(id) {
      NoReturn(w, ls, id);
    } else {
      var l := ls[0];
      FirstStep(w, ls, id, root, seen);
      var v := Next(w, l);
      StepKeeps(w, l);
      ChainGoesOn(w, ls, root);
      NextChain(w, l, root);
      if l.Serve? && l.id == id {
        MyRefusal(w, ls, id, root, seen);
      } else {
        OthersStep(w, l, id);
        assert CommitsOn(v.env, root)[..seen] == CommitsOn(w.env, root)[..seen];
        RefusalsCostRivals(v, ls[1..], id, root, seen);
      }
    }
  }

  lemma NoReturn(w: World, ls: seq<Label>, id: nat)
    requires Legal(w, ls) && (|ls| == 0 || ls[0] == Crash(id))
    ensures Returned(w, ls, id) == None
  {
  }

  lemma NextChain(w: World, l: Label, root: string)
    requires WorldOK(w) && Enabled(w, l)
    ensures CommitsOn(w.env, root) <= CommitsOn(Next(w, l).env, root)
  {
    StepKeeps(w, l);
    hide WorldOK, Next;
    if root in w.env.chains {
      assert ChainGrows(w.env.chains[root], Next(w, l).env.chains[root]);
    }
  }

  /** After a refusal at most three before: one rival more. */
  lemma {:induction false} MyRefusal(w: World, ls: seq<Label>, id: nat, root: string, seen: nat)
    requires WorldOK(w) && Legal(w, ls) && id in w.ops && w.ops[id].InFinalize? && w.ops[id].f.FComplete?
    requires w.ops[id].f.attempt <= MAX_CO_SIGN_RETRIES
    requires seen <= |CommitsOn(w.env, root)| && RefusedForRivals(w, ls, id, root, seen)
    requires |Signers(CommitsOn(w.env, root)[..seen]) - {w.ops[id].job.jobID}| >= w.ops[id].f.attempt
    requires |ls| > 0 && ls[0].Serve? && ls[0].id == id
    requires WorldOK(Next(w, ls[0])) && CommitsOn(w.env, root) <= CommitsOn(Next(w, ls[0]).env, root)
    requires CommitsOn(w.env, root) <= CommitsOn(Play(w, ls).env, root)
    ensures Returned(w, ls, id).Some? && Returned(w, ls, id).value.outcome == Rejected(ErrChainAdvanced) ==>
              |Signers(CommitsOn(Play(w, ls).env, root)) - {w.ops[id].job.jobID}| >= 4
    decreases |ls|, 0
  {
    hide Legal, Play, Returned, RefusedForRivals, WorldOK, Resume, Request, ReplyTo, CommitsOn, Signers, NewRival;
    hide Refused;
    FirstStep(w, ls, id, root, seen);
    var op, a, v := w.ops[id], ls[0].a, Next(w, ls[0]);
    if Refused(w, id, a) {
      RefusalResumes(w, id, a);
    }
    OwnStep(w, id, a);
    hide Enabled, Next;
    if Refused(w, id, a) {
      MoreRivals(w, v, Play(w, ls), id, root, seen);
      var then' := CommitsOn(v.env, root);
      assert then'[..|then'|] == then';
      if op.f.attempt < MAX_CO_SIGN_RETRIES {
        RefusalsCostRivals(v, ls[1..], id, root, |then'|);
      }
    } else {
      NotRefused(w, ls, id);
    }
  }

  lemma RefusalResumes(w: World, id: nat, a: Answering)
    requires Enabled(w, Serve(id, a)) && w.ops[id].InFinalize? && w.ops[id].f.FComplete? && Refused(w, id, a)
    ensures var op, next := w.ops[id], Resumed(w, id, a);
            && (op.f.attempt < MAX_CO_SIGN_RETRIES ==>
                  next == InFinalize(op.job, op.token, FComplete(op.f.docID, op.f.fileless, op.f.attempt + 1)))
            && (op.f.attempt >= MAX_CO_SIGN_RETRIES ==> next == Done(Rejected(ErrChainAdvanced)))
  {
    hide ReplyTo, Resume;
    MergeAnswered(w.wired, w.ops[id], ReplyTo(w.env, Request(w.ops[id]), a));
  }

  /** A merge that was not refused does not end in ErrChainAdvanced any more. */
  lemma NotRefused(w: World, ls: seq<Label>, id: nat)
    requires Legal(w, ls) && |ls| > 0 && ls[0].Serve? && ls[0].id == id
    requires Enabled(w, ls[0]) && w.ops[id].InFinalize? && w.ops[id].f.FComplete? && !Refused(w, id, ls[0].a)
    ensures Returned(w, ls, id).Some? ==> Returned(w, ls, id).value.outcome != Rejected(ErrChainAdvanced)
  {
    var a, v := ls[0].a, Next(w, ls[0]);
    FirstStep(w, ls, id, "", 0);
    MergeAnswered(w.wired, w.ops[id], ReplyTo(w.env, Request(w.ops[id]), a));
    OwnStep(w, id, a);
    hide Legal, Play, Returned, Next, Enabled, Resume, ReplyTo, IsChainAdvanced, Stored;
    StoredDone(Resumed(w, id, a));
    if id in v.ops {
      StoredPassReturns(v, ls[1..], id);
    }
  }

  lemma MoreRivals(w: World, v: World, end: World, id: nat, root: string, seen: nat)
    requires id in w.ops && w.ops[id].InFinalize? && w.ops[id].f.FComplete?
    requires seen <= |CommitsOn(w.env, root)| && NewRival(CommitsOn(w.env, root), seen, w.ops[id].job.jobID)
    requires |Signers(CommitsOn(w.env, root)[..seen]) - {w.ops[id].job.jobID}| >= w.ops[id].f.attempt
    requires CommitsOn(w.env, root) <= CommitsOn(v.env, root) && CommitsOn(w.env, root) <= CommitsOn(end.env, root)
    ensures |Signers(CommitsOn(v.env, root)) - {w.ops[id].job.jobID}| >= w.ops[id].f.attempt + 1
    ensures |Signers(CommitsOn(end.env, root)) - {w.ops[id].job.jobID}| >= w.ops[id].f.attempt + 1
  {
    hide CommitsOn, Signers, NewRival;
    var now, j := CommitsOn(w.env, root), w.ops[id].job.jobID;
    OneRivalMore(now, seen, j);
    SignersGrow(now, CommitsOn(v.env, root), j);
    SignersGrow(now, CommitsOn(end.env, root), j);
  }

  /** Four refusals need four rivals: in any run in which the document service refuses a try of this pass only when a
      new signer has signed the chain since the try before, a chain that ends up with at most four signers, this one
      included, never makes the pass end in ErrChainAdvanced. */
  lemma FourRefusalsNeedFourRivals(w: World, ls: seq<Label>, id: nat, root: string)
    requires Reached(w) && Legal(w, ls) && id in w.ops && w.ops[id].InFinalize? && w.ops[id].f.FComplete?
    requires w.ops[id].f.attempt == 0
    requires w.ops[id].f.docID in w.env.docs && w.env.docs[w.ops[id].f.docID].root == root
    requires RefusedForRivals(w, ls, id, root, |CommitsOn(w.env, root)|)
    requires |Signers(CommitsOn(Play(w, ls).env, root)) + {w.ops[id].job.jobID}| <= 4
    ensures Returned(w, ls, id).Some? ==> Returned(w, ls, id).value.outcome != Rejected(ErrChainAdvanced)
  {
    ReachedOK(w);
    hide WorldOK, Legal, Play, Returned, RefusedForRivals;
    RefusalsCostRivals(w, ls, id, root, |CommitsOn(w.env, root)|);
    var all, j := Signers(CommitsOn(Play(w, ls).env, root)), w.ops[id].job.jobID;
    assert all + {j} == (all - {j}) + {j};
  }
}
