/** What a job's state says about its records. The source relies on three things here: reconciles of one job do not
    overlap, no client signature takes effect on a COMPLETED job, and the provider never reports the conductor's own
    COMPLETED. Under them COMPLETED is for ever, means recorded, and with it the exact count of records (Counting, which
    needs no assumptions) can be read off the job. */
module OnceOnly {
  import opened Protocol
  import opened StoreSpec
  import opened Choreography
  import opened Solo
  import opened Worlds
  import opened Invariants
  import opened Reachable
  import opened Steps
  import opened Guarantees
  import opened Counting

  // ---- the assumptions ----

  /** The job a reconcile pass works on, from its start to its return. */
  function PassOf(op: Op): Option<string> {
    match op
    case InReconcile(jobID, _) => Some(jobID)
    case InFinalize(job, _, _) => Some(job.jobID)
    case InValidation(v, _) => if v.asker.AtSigning? then Some(v.asker.status.jobID) else None
    case _ => None
  }

  predicate Terminal(s: State) {
    s == COMPLETED || s == FAILED
  }

  predicate SaysCompleted(r: Reply) {
    (r.Prepared? && r.prep.state == COMPLETED) || (r.Provider? && r.status.state == COMPLETED)
  }

  predicate Orderly(w: World, l: Label) {
    match l
    case Start(_, op) => op.InReconcile? ==> forall i :: i in w.ops ==> PassOf(w.ops[i]) != Some(op.jobID)
    case Serve(id, a) =>
      id in w.ops ==>
        && !SaysCompleted(a.reply)
        && (w.ops[id].InSubmit? && w.ops[id].s.SNote? && w.ops[id].jobID in w.env.store.jobs && Effective(a) ==>
              w.env.store.jobs[w.ops[id].jobID].state != COMPLETED)
    case _ => true
  }

  predicate OrderlyRun(w: World, ls: seq<Label>)
    requires Legal(w, ls)
    decreases |ls|
  {
    |ls| > 0 ==> Orderly(w, ls[0]) && OrderlyRun(Next(w, ls[0]), ls[1..])
  }

  // ---- counting ----

  /** Some pass has recorded the job's signature and not yet marked the job. */
  ghost predicate Between(w: World, j: string) {
    exists i :: i in w.ops && Marking(w.ops[i]) && w.ops[i].job.jobID == j
  }

  /** A pass that has found the job not terminal and has not marked it. */
  predicate Unfinished(op: Op) {
    || (op.InReconcile? && !op.r.RGet?)
    || (op.InFinalize? && !op.f.FRelease? && !op.f.FNotify?)
  }

  /** What an operation is about to write never is the conductor's own COMPLETED, but for the mark. */
  predicate Honest(op: Op) {
    && (op.InBegin? && op.b.BSave? ==> op.b.prep.state != COMPLETED)
    && (op.InReconcile? && op.r.RNote? ==> op.r.st.state != COMPLETED)
    && (op.InSubmit? && op.s.SNote? ==> op.s.state != COMPLETED)
  }

  predicate PassesApart(w: World) {
    forall i, k :: i in w.ops && k in w.ops && PassOf(w.ops[i]).Some? && PassOf(w.ops[i]) == PassOf(w.ops[k]) ==> i == k
  }

  ghost predicate MarksOK(w: World) {
    && (forall j :: w.hist.marks[j] <= 1)
    && (forall j :: j in w.hist.marks ==> j in w.env.store.jobs)
    && (forall j :: j in w.env.store.jobs ==> (w.env.store.jobs[j].state == COMPLETED <==> j in w.hist.marks))
    && (forall i :: i in w.ops && Unfinished(w.ops[i]) ==> PassOf(w.ops[i]).value !in w.hist.marks)
    && (forall i :: i in w.ops ==> Honest(w.ops[i]))
  }

  ghost predicate OnceOK(w: World) {
    PassesApart(w) && MarksOK(w)
  }

  // ---- one call ----

  /** The state an operation's call writes to a job that exists. */
  function Writes(op: Op): Option<(string, State)> {
    match op
    case InReconcile(jobID, r) => if r.RNote? then Some((jobID, r.st.state)) else None
    case InFinalize(job, _, f) => if f.FMark? then Some((job.jobID, COMPLETED)) else None
    case InSubmit(jobID, s) => if s.SNote? then Some((jobID, s.state)) else None
    case _ => None
  }

  lemma ApplyOnJobs(s: StoreState, now: int, newID: string, call: StoreCall)
    ensures Apply(s, now, newID, call).0.jobs ==
      if call.SaveJob? && call.save.jobID !in s.jobs then s.jobs[call.save.jobID := JobOf(call.save, now)]
      else if call.ReconcileJob? && call.jobID in s.jobs then
        s.jobs[call.jobID := s.jobs[call.jobID].(state := call.state, updatedAt := now)]
      else s.jobs
  {
  }

  lemma WhoWritesJobs(op: Op)
    requires !op.Done?
    ensures Request(op).ToStore? && Request(op).s.ReconcileJob? <==> Writes(op).Some?
    ensures Writes(op).Some? ==> Writes(op).value == (Request(op).s.jobID, Request(op).s.state)
    ensures Request(op).ToStore? && Request(op).s.SaveJob? <==> op.InBegin? && op.b.BSave?
    ensures op.InBegin? && op.b.BSave? ==>
              Request(op).s.save.jobID == op.b.prep.jobID && Request(op).s.save.state == op.b.prep.state
  {
  }

  /** The jobs' states after a step. */
  lemma StatesAfter(w: World, op: Op, a: Answering, v: World)
    requires !op.Done? && After(w, op, a, v)
    ensures forall j :: j in w.env.store.jobs ==>
      && j in v.env.store.jobs
      && v.env.store.jobs[j].state ==
           if Effective(a) && Writes(op).Some? && Writes(op).value.0 == j then Writes(op).value.1
           else w.env.store.jobs[j].state
    ensures forall j :: j in v.env.store.jobs && j !in w.env.store.jobs ==>
      op.InBegin? && op.b.BSave? && v.env.store.jobs[j].state == InitialState(op.b.prep.state)
  {
    WhoWritesJobs(op);
    EffectOnStore(w.env, Request(op), a);
    hide Apply, Effect, Resume, ReplyTo, Answerable, Request, Note;
    if Request(op).ToStore? {
      ApplyOnJobs(w.env.store, w.env.now, a.newID, Request(op).s);
    }
  }

  lemma FinalizePass(wired: bool, job: Job, token: string, f: Finalizing, r: Reply)
    ensures PassOf(ResumeFinalize(wired, job, token, f, r)) in {None, Some(job.jobID)}
  {
  }

  lemma BeginIsNoPass(input: BeginInput, b: Beginning, r: Reply)
    ensures PassOf(ResumeBegin(input, b, r)) == None
  {
  }

  /** A pass goes on as a pass over the same job, or is over. */
  lemma PassContinues(wired: bool, op: Op, r: Reply)
    requires !op.Done?
    requires op.InReconcile? && op.r.RNote? ==> op.r.job.jobID == op.jobID
    ensures PassOf(Resume(wired, op, r)).Some? ==> PassOf(Resume(wired, op, r)) == PassOf(op)
  {
    hide ResumeFinalize, ResumeBegin;
    match op
    case InFinalize(job, token, f) => FinalizePass(wired, job, token, f, r);
    case InBegin(input, b) => BeginIsNoPass(input, b, r);
    case _ =>
  }

  lemma FinalizeUnfinished(wired: bool, job: Job, token: string, f: Finalizing, r: Reply)
    ensures Unfinished(ResumeFinalize(wired, job, token, f, r)) ==>
      Unfinished(InFinalize(job, token, f)) && !f.FMark?
  {
  }

  lemma UnfinishedFrom(wired: bool, op: Op, r: Reply)
    requires !op.Done? && Unfinished(Resume(wired, op, r))
    ensures !Marking(op)
    ensures Unfinished(op) || (op.InReconcile? && op.r.RGet? && r.JobRow? && !Terminal(r.job.state))
  {
    if op.InFinalize? {
      FinalizeUnfinished(wired, op.job, op.token, op.f, r);
    }
  }

  lemma BeginHonesty(input: BeginInput, b: Beginning, r: Reply)
    requires !SaysCompleted(r) && Honest(InBegin(input, b))
    ensures Honest(ResumeBegin(input, b, r))
  {
  }

  lemma HonestyKept(wired: bool, op: Op, r: Reply)
    requires !op.Done? && !SaysCompleted(r) && Honest(op)
    ensures Honest(Resume(wired, op, r))
  {
    match op
    case InBegin(input, b) =>
      hide ResumeBegin;
      BeginHonesty(input, b, r);
    case InFinalize(job, token, f) =>
      FinalizeStaysFinal(wired, job, token, f, r);
    case _ =>
  }

  lemma FinalizeStaysFinal(wired: bool, job: Job, token: string, f: Finalizing, r: Reply)
    ensures var next := ResumeFinalize(wired, job, token, f, r); next.InFinalize? || next.InValidation? || next.Done?
  {
  }

  // ---- one served call ----

  /** The step of pass `id`: what it was, what it is now, and what it left behind. */
  ghost predicate Stepped(w: World, id: nat, a: Answering, v: World, next: Op) {
    && id in w.ops && !w.ops[id].Done? && After(w, w.ops[id], a, v)
    && next == Resume(w.wired, w.ops[id], ReplyTo(w.env, Request(w.ops[id]), a))
    && v.ops == if next.Done? then w.ops - {id} else w.ops[id := next]
  }

  lemma PassesStayApart(w: World, id: nat, a: Answering, v: World, next: Op)
    requires Stepped(w, id, a, v, next) && PassesApart(w) && OpOK(w, w.ops[id])
    ensures PassesApart(v)
  {
    PassContinues(w.wired, w.ops[id], ReplyTo(w.env, Request(w.ops[id]), a));
    hide Resume, ReplyTo, Request, After;
  }

  /** Whatever a call writes to a job, it is COMPLETED exactly when it is the mark; and no one but its own pass marks
      it. */
  lemma MarksStay(w: World, id: nat, a: Answering, v: World, next: Op)
    requires Stepped(w, id, a, v, next) && PassesApart(w) && MarksOK(w)
    requires OpOK(w, w.ops[id]) && Orderly(w, Serve(id, a))
    ensures MarksOK(v)
  {
    hide Resume, ReplyTo, Request, After, OpOK, Honest, Unfinished, Writes, PassOf, SaysCompleted, Effective,
        PassesApart;
    var op := w.ops[id];
    StatesAfter(w, op, a, v);
    TallyAfter(w, op, a, v, next);
    HonestNext(w, op, a, next);
    UnfinishedNext(w, op, a, next);
    if Marking(op) {
      MarksKnownJob(w, op);
    }
    hide MarksOK, Orderly;
    MarksFrame(w, id, a, v, next);
  }

  lemma MarksKnownJob(w: World, op: Op)
    requires OpOK(w, op) && Marking(op)
    ensures op.job.jobID in w.env.store.jobs
  {
  }

  lemma HonestNext(w: World, op: Op, a: Answering, next: Op)
    requires !op.Done? && Honest(op) && !SaysCompleted(a.reply)
    requires next == Resume(w.wired, op, ReplyTo(w.env, Request(op), a))
    ensures Honest(next)
  {
    StoreNeverSaysCompleted(w.env, Request(op), a);
    hide Resume, ReplyTo, Request, Honest, SaysCompleted;
    HonestyKept(w.wired, op, ReplyTo(w.env, Request(op), a));
  }

  /** A pass that is not finished after a call was not before it, or has just read its job and found it not terminal. */
  lemma UnfinishedNext(w: World, op: Op, a: Answering, next: Op)
    requires !op.Done? && OpOK(w, op)
    requires next == Resume(w.wired, op, ReplyTo(w.env, Request(op), a))
    ensures Unfinished(next) ==>
      && !Marking(op) && PassOf(next) == PassOf(op)
      && (Unfinished(op)
          || (PassOf(next).value in w.env.store.jobs && !Terminal(w.env.store.jobs[PassOf(next).value].state)))
  {
    var r := ReplyTo(w.env, Request(op), a);
    if Unfinished(next) {
      UnfinishedFrom(w.wired, op, r);
      if !Unfinished(op) {
        ReadJob(w, op, a);
      }
      PassContinues(w.wired, op, r);
    }
    hide Resume, ReplyTo, Request;
  }

  lemma StoreNeverSaysCompleted(e: Env, call: Call, a: Answering)
    requires !SaysCompleted(a.reply)
    ensures !SaysCompleted(ReplyTo(e, call, a))
  {
  }

  lemma ReadJob(w: World, op: Op, a: Answering)
    requires op.InReconcile? && op.r.RGet?
    ensures ReplyTo(w.env, Request(op), a).JobRow? ==>
      op.jobID in w.env.store.jobs && ReplyTo(w.env, Request(op), a).job == w.env.store.jobs[op.jobID]
  {
  }

  /** What MarksFrame needs to know of the step. */
  ghost predicate MarkStep(w: World, id: nat, a: Answering, v: World, next: Op)
    requires id in w.ops
  {
    var op := w.ops[id];
    && v.ops == (if next.Done? then w.ops - {id} else w.ops[id := next])
    && (forall j :: j in w.env.store.jobs ==>
          && j in v.env.store.jobs
          && v.env.store.jobs[j].state ==
               if Effective(a) && Writes(op).Some? && Writes(op).value.0 == j then Writes(op).value.1
               else w.env.store.jobs[j].state)
    && (forall j :: j in v.env.store.jobs && j !in w.env.store.jobs ==>
          op.InBegin? && op.b.BSave? && v.env.store.jobs[j].state == InitialState(op.b.prep.state))
    && v.hist.marks == (if Marking(op) && Effective(a) then w.hist.marks + multiset{op.job.jobID} else w.hist.marks)
    && (Marking(op) ==> op.job.jobID in w.env.store.jobs)
    && Honest(next)
    && (Unfinished(next) ==>
          && !Marking(op) && PassOf(next) == PassOf(op)
          && (Unfinished(op)
              || (PassOf(next).value in w.env.store.jobs && w.env.store.jobs[PassOf(next).value].state != COMPLETED)))
  }

  lemma MarksFrame(w: World, id: nat, a: Answering, v: World, next: Op)
    requires id in w.ops && PassesApart(w) && MarksOK(w) && Orderly(w, Serve(id, a))
    requires MarkStep(w, id, a, v, next)
    ensures MarksOK(v)
  {
    MarkedOnce(w, id, a, v, next);
    HonestAfter(w, id, a, v, next);
    forall j | j in v.env.store.jobs ensures v.env.store.jobs[j].state == COMPLETED <==> j in v.hist.marks {
      StateMatchesMark(w, id, a, v, next, j);
    }
    forall i | i in v.ops && Unfinished(v.ops[i]) ensures PassOf(v.ops[i]).value !in v.hist.marks {
      UnfinishedUnmarked(w, id, a, v, next, i);
    }
    hide MarkStep, Orderly, PassesApart, Unfinished, Honest;
  }

  lemma MarkedOnce(w: World, id: nat, a: Answering, v: World, next: Op)
    requires id in w.ops && MarksOK(w) && MarkStep(w, id, a, v, next)
    ensures forall j :: v.hist.marks[j] <= 1
    ensures forall j :: j in v.hist.marks ==> j in v.env.store.jobs
  {
    hide Honest;
    assert Marking(w.ops[id]) ==> Unfinished(w.ops[id]);
  }

  lemma HonestAfter(w: World, id: nat, a: Answering, v: World, next: Op)
    requires id in w.ops && MarksOK(w) && MarkStep(w, id, a, v, next)
    ensures forall i :: i in v.ops ==> Honest(v.ops[i])
  {
    hide Honest, Unfinished;
  }

  lemma StateMatchesMark(w: World, id: nat, a: Answering, v: World, next: Op, j: string)
    requires id in w.ops && MarksOK(w) && Orderly(w, Serve(id, a)) && MarkStep(w, id, a, v, next)
    requires j in v.env.store.jobs
    ensures v.env.store.jobs[j].state == COMPLETED <==> j in v.hist.marks
  {
  }

  lemma UnfinishedUnmarked(w: World, id: nat, a: Answering, v: World, next: Op, i: nat)
    requires id in w.ops && PassesApart(w) && MarksOK(w) && MarkStep(w, id, a, v, next)
    requires i in v.ops && Unfinished(v.ops[i])
    ensures PassOf(v.ops[i]).value !in v.hist.marks
  {
    UnfinishedPasses(v.ops[i]);
    if i == id {
      OwnPassUnmarked(w, id, a, v, next);
    } else {
      OtherPassUnmarked(w, id, a, v, next, i);
    }
  }

  lemma UnfinishedPasses(op: Op)
    requires Unfinished(op)
    ensures PassOf(op).Some?
  {
  }

  lemma OwnPassUnmarked(w: World, id: nat, a: Answering, v: World, next: Op)
    requires id in w.ops && MarksOK(w) && MarkStep(w, id, a, v, next) && id in v.ops && Unfinished(next)
    ensures PassOf(next).Some? ==> PassOf(next).value !in v.hist.marks
  {
    hide Honest, Writes, Effective;
  }

  lemma OtherPassUnmarked(w: World, id: nat, a: Answering, v: World, next: Op, i: nat)
    requires id in w.ops && PassesApart(w) && MarksOK(w) && MarkStep(w, id, a, v, next)
    requires i in v.ops && i != id && Unfinished(v.ops[i]) && PassOf(v.ops[i]).Some?
    ensures PassOf(v.ops[i]).value !in v.hist.marks
  {
    assert Marking(w.ops[id]) ==> PassOf(w.ops[id]) == Some(w.ops[id].job.jobID);
    hide Honest, Writes, Effective, Unfinished, PassOf, Marking;
  }

  lemma ServeOnce(w: World, id: nat, a: Answering)
    requires WorldOK(w) && OnceOK(w) && Enabled(w, Serve(id, a)) && Orderly(w, Serve(id, a))
    ensures OnceOK(Next(w, Serve(id, a)))
  {
    var op, v := w.ops[id], Next(w, Serve(id, a));
    var next := Resume(w.wired, op, ReplyTo(w.env, Request(op), a));
    ServeParts(w, id, a);
    hide Next, Enabled, Resume, Request, ReplyTo, After, EnvOK, LinksOK, PdfOnce, LocksOK, EvidenceOK, OpOK;
    hide PassesApart, MarksOK, Orderly;
    assert OpOK(w, op);
    PassesStayApart(w, id, a, v, next);
    MarksStay(w, id, a, v, next);
  }

  /** Operations come and go, but only such as owe nothing yet: the marks stay right. */
  lemma SameMarks(w: World, v: World)
    requires PassesApart(w) && MarksOK(w) && v.env.store == w.env.store && v.hist.marks == w.hist.marks
    requires forall i :: i in v.ops ==>
        (i in w.ops && v.ops[i] == w.ops[i]) || (!Unfinished(v.ops[i]) && Honest(v.ops[i]))
    ensures MarksOK(v)
  {
    hide Unfinished, Honest, PassOf;
  }

  lemma StartsEmpty(wired: bool, op: Op)
    requires Startable(wired, op)
    ensures !Marking(op) && !Unfinished(op) && Honest(op) && (PassOf(op).Some? <==> op.InReconcile?)
    ensures op.InReconcile? ==> PassOf(op) == Some(op.jobID)
  {
  }

  lemma StartOnce(w: World, id: nat, op: Op)
    requires OnceOK(w) && Enabled(w, Start(id, op)) && Orderly(w, Start(id, op))
    ensures OnceOK(Next(w, Start(id, op)))
  {
    hide Startable, MarksOK, Unfinished, Honest, PassOf, Marking;
    var v := Next(w, Start(id, op));
    StartsEmpty(w.wired, op);
    assert v == w.(ops := w.ops[id := op]);
    hide Next, Enabled;
    SameMarks(w, v);
  }

  lemma CrashOnce(w: World, id: nat)
    requires OnceOK(w) && Enabled(w, Crash(id))
    ensures OnceOK(Next(w, Crash(id)))
  {
    hide Next, MarksOK, Unfinished, Honest, PassOf, Marking, Stopped;
    CrashStep(w, id);
    SameMarks(w, Next(w, Crash(id)));
  }

  lemma SameOnce(w: World, v: World)
    requires OnceOK(w) && v.ops == w.ops && v.hist == w.hist && v.env.store == w.env.store
    ensures OnceOK(v)
  {
  }

  lemma StepOnce(w: World, l: Label)
    requires WorldOK(w) && OnceOK(w) && Enabled(w, l) && Orderly(w, l)
    ensures OnceOK(Next(w, l))
  {
    match l
    case Serve(id, a) =>
      hide *;
      ServeOnce(w, id, a);
    case Start(id, op) =>
      hide *;
      StartOnce(w, id, op);
    case Crash(id) =>
      hide *;
      CrashOnce(w, id);
    case _ =>
      hide WorldOK, OnceOK;
      SameOnce(w, Next(w, l));
  }

  lemma {:induction false} RunOnce(w: World, ls: seq<Label>)
    requires WorldOK(w) && OnceOK(w) && Legal(w, ls) && OrderlyRun(w, ls)
    ensures OnceOK(Play(w, ls))
    decreases |ls|
  {
    hide Enabled, Next, WorldOK, OnceOK, Orderly;
    if |ls| > 0 {
      StepKeeps(w, ls[0]);
      StepOnce(w, ls[0]);
      RunOnce(Next(w, ls[0]), ls[1..]);
    }
  }

  // ---- the guarantees ----

  ghost predicate ReachedOrderly(w: World) {
    exists wired, echoes, now, ls ::
      && Legal(Initial(wired, echoes, now), ls) && OrderlyRun(Initial(wired, echoes, now), ls)
      && w == Play(Initial(wired, echoes, now), ls)
  }

  lemma OrderlyOK(w: World)
    requires ReachedOrderly(w)
    ensures WorldOK(w) && OnceOK(w)
  {
    hide WorldOK, Legal, Play, OrderlyRun;
    var wired, echoes, now, ls :|
      && Legal(Initial(wired, echoes, now), ls) && OrderlyRun(Initial(wired, echoes, now), ls)
      && w == Play(Initial(wired, echoes, now), ls);
    InitialOK(wired, echoes, now);
    RunKeeps(Initial(wired, echoes, now), ls);
    RunOnce(Initial(wired, echoes, now), ls);
  }

  /** Under the assumptions, a job's records come down to: one if it is COMPLETED, one for every pass that stopped
      between recording and marking, and one if such a pass is under way. */
  lemma RecordsAreCounted(w: World, j: string)
    requires ReachedOrderly(w) && j in w.env.store.jobs
    ensures |RecordsOf(w.env.store, j)|
            == (if w.env.store.jobs[j].state == COMPLETED then 1 else 0) + w.hist.strays[j]
               + (if Between(w, j) then 1 else 0)
    ensures w.hist.strays[j] == 0 ==> |RecordsOf(w.env.store, j)| <= 1
    ensures w.env.store.jobs[j].state == COMPLETED ==> !Between(w, j)
    ensures w.env.store.jobs[j].state == COMPLETED ==>
        exists id :: id in w.env.store.sigs && w.env.store.sigs[id].jobID == j
  {
    OrderlyOK(w);
    OrderlyIsReached(w);
    EveryRecordIsCounted(w, j);
    OneInFlight(w, j);
    hide WorldOK, PassesApart, RecordsOf, Between, Unfinished, InFlight, Reached;
    assert w.hist.marks[j] <= 1;
    if w.env.store.jobs[j].state == COMPLETED {
      assert j in w.hist.marks;
      MarkedIsNotBetween(w, j);
      SomeRecord(w.env.store, j);
    }
  }

  lemma OrderlyIsReached(w: World)
    requires ReachedOrderly(w)
    ensures Reached(w)
  {
    hide Legal, Play, OrderlyRun;
  }

  /** Passes apart, at most one is between recording and marking. */
  lemma OneInFlight(w: World, j: string)
    requires PassesApart(w)
    ensures |InFlight(w, j)| == if Between(w, j) then 1 else 0
  {
    if Between(w, j) {
      var i :| i in w.ops && Marking(w.ops[i]) && w.ops[i].job.jobID == j;
      assert InFlight(w, j) == {i} by {
        forall k | k in InFlight(w, j) ensures k == i {
          assert PassOf(w.ops[k]) == Some(j) == PassOf(w.ops[i]);
        }
      }
    } else {
      assert InFlight(w, j) == {};
    }
  }

  lemma MarkedIsNotBetween(w: World, j: string)
    requires MarksOK(w) && j in w.hist.marks
    ensures !Between(w, j)
  {
    forall i | i in w.ops && Marking(w.ops[i]) ensures w.ops[i].job.jobID != j {
      assert Unfinished(w.ops[i]);
    }
  }

  lemma SomeRecord(s: StoreState, j: string)
    requires |RecordsOf(s, j)| > 0
    ensures exists id :: id in s.sigs && s.sigs[id].jobID == j
  {
    var id :| id in RecordsOf(s, j);
  }

  /** A terminal job that no pass is still working on. */
  predicate Settled(w: World, j: string) {
    && j in w.env.store.jobs && Terminal(w.env.store.jobs[j].state)
    && forall i :: i in w.ops && Unfinished(w.ops[i]) ==> PassOf(w.ops[i]) != Some(j)
  }

  /** A client signature's state other than FAILED is noted on the job. */
  predicate NotesSubmit(w: World, l: Label, j: string) {
    && l.Serve? && l.id in w.ops && Effective(l.a)
    && w.ops[l.id].InSubmit? && w.ops[l.id].s.SNote? && w.ops[l.id].jobID == j && w.ops[l.id].s.state != FAILED
  }

  ghost predicate NoLateSubmit(w: World, ls: seq<Label>, j: string)
    requires Legal(w, ls)
    decreases |ls|
  {
    |ls| > 0 ==> !NotesSubmit(w, ls[0], j) && NoLateSubmit(Next(w, ls[0]), ls[1..], j)
  }

  lemma SettledStep(w: World, l: Label, j: string)
    requires WorldOK(w) && Settled(w, j) && Enabled(w, l) && Orderly(w, l)
    requires w.env.store.jobs[j].state == COMPLETED || !NotesSubmit(w, l, j)
    ensures var v := Next(w, l);
            Settled(v, j) && v.env.store.jobs[j].state == w.env.store.jobs[j].state
  {
    match l
    case Serve(id, a) =>
      hide *;
      SettledServe(w, id, a, j);
    case Start(id, op) =>
      hide *;
      SettledStart(w, id, op, j);
    case _ =>
      hide WorldOK, Orderly, NotesSubmit, Unfinished, Stopped;
  }

  lemma SettledStart(w: World, id: nat, op: Op, j: string)
    requires Settled(w, j) && Enabled(w, Start(id, op))
    ensures Settled(Next(w, Start(id, op)), j)
    ensures Next(w, Start(id, op)).env.store.jobs[j].state == w.env.store.jobs[j].state
  {
    assert !Unfinished(op);
    hide Startable, Unfinished;
  }

  lemma SettledServe(w: World, id: nat, a: Answering, j: string)
    requires WorldOK(w) && Settled(w, j) && Enabled(w, Serve(id, a)) && Orderly(w, Serve(id, a))
    requires w.env.store.jobs[j].state == COMPLETED || !NotesSubmit(w, Serve(id, a), j)
    ensures var v := Next(w, Serve(id, a));
            Settled(v, j) && v.env.store.jobs[j].state == w.env.store.jobs[j].state
  {
    assert OpOK(w, w.ops[id]);
    hide Resume, ReplyTo, After, OpOK, Unfinished, Orderly, NotesSubmit, Effective, Writes, WorldOK;
    var op, v := w.ops[id], Next(w, Serve(id, a));
    var next := Resume(w.wired, op, ReplyTo(w.env, Request(op), a));
    ServeParts(w, id, a);
    hide Next, Enabled, Resume, Request, ReplyTo, After, OpOK, Unfinished, Orderly, NotesSubmit, Effective,
        Writes;
    StatesAfter(w, op, a, v);
    SettledPass(w, op, a, next, j);
    WritesNothingNew(w, id, a, j);
  }

  /** A pass over a settled job does not get past its first look at it. */
  lemma SettledPass(w: World, op: Op, a: Answering, next: Op, j: string)
    requires OpOK(w, op) && !op.Done? && next == Resume(w.wired, op, ReplyTo(w.env, Request(op), a))
    requires j in w.env.store.jobs && Terminal(w.env.store.jobs[j].state)
    requires Unfinished(op) ==> PassOf(op) != Some(j)
    ensures Unfinished(next) ==> PassOf(next) != Some(j)
  {
    hide Resume, Request, ReplyTo, OpOK, Unfinished;
    UnfinishedNext(w, op, a, next);
  }

  lemma WritesNothingNew(w: World, id: nat, a: Answering, j: string)
    requires id in w.ops && OpOK(w, w.ops[id]) && Orderly(w, Serve(id, a))
    requires j in w.env.store.jobs && Terminal(w.env.store.jobs[j].state)
    requires w.env.store.jobs[j].state == COMPLETED || !NotesSubmit(w, Serve(id, a), j)
    requires Unfinished(w.ops[id]) ==> PassOf(w.ops[id]) != Some(j)
    ensures Effective(a) && Writes(w.ops[id]).Some? && Writes(w.ops[id]).value.0 == j ==>
              Writes(w.ops[id]).value.1 == w.env.store.jobs[j].state
  {
  }

  /** Terminal is terminal: COMPLETED always; FAILED once no earlier pass is still at work, as long as no client
      signature that did not fail is noted either. */
  lemma {:induction false} SettledStays(w: World, ls: seq<Label>, j: string)
    requires WorldOK(w) && Settled(w, j) && Legal(w, ls) && OrderlyRun(w, ls)
    requires w.env.store.jobs[j].state == COMPLETED || NoLateSubmit(w, ls, j)
    ensures var v := Play(w, ls);
            Settled(v, j) && v.env.store.jobs[j].state == w.env.store.jobs[j].state
    decreases |ls|
  {
    hide Enabled, Next, WorldOK, Orderly, Settled, NotesSubmit;
    if |ls| > 0 {
      SettledIsThere(w, j);
      StepKeeps(w, ls[0]);
      SettledStep(w, ls[0], j);
      SettledStays(Next(w, ls[0]), ls[1..], j);
    }
  }

  lemma SettledIsThere(w: World, j: string)
    requires Settled(w, j)
    ensures j in w.env.store.jobs
  {
  }

  /** COMPLETED is for ever, and from then on the count of records does not change. */
  lemma CompletedIsAbsorbing(w: World, ls: seq<Label>, j: string)
    requires ReachedOrderly(w) && Legal(w, ls) && OrderlyRun(w, ls)
    requires j in w.env.store.jobs && w.env.store.jobs[j].state == COMPLETED
    ensures var v := Play(w, ls);
            && j in v.env.store.jobs && v.env.store.jobs[j].state == COMPLETED
            && v.hist.strays[j] == w.hist.strays[j]
            && |RecordsOf(v.env.store, j)| == |RecordsOf(w.env.store, j)|
  {
    OrderlyOK(w);
    assert Settled(w, j) by {
      hide WorldOK;
      forall i | i in w.ops && Unfinished(w.ops[i]) ensures PassOf(w.ops[i]) != Some(j) {
        assert PassOf(w.ops[i]).value !in w.hist.marks;
      }
    }
    hide WorldOK, Legal, Play, OrderlyRun, OnceOK, Settled;
    SettledStays(w, ls, j);
    SettledGainsNothing(w, ls, j);
  }

  /** Nothing is recorded and nothing goes astray for a settled job. */
  lemma {:induction false} SettledGainsNothing(w: World, ls: seq<Label>, j: string)
    requires WorldOK(w) && Settled(w, j) && Legal(w, ls) && OrderlyRun(w, ls)
    requires w.env.store.jobs[j].state == COMPLETED || NoLateSubmit(w, ls, j)
    ensures Play(w, ls).hist.strays[j] == w.hist.strays[j]
    ensures |RecordsOf(Play(w, ls).env.store, j)| == |RecordsOf(w.env.store, j)|
    decreases |ls|
  {
    hide Enabled, Next, WorldOK, Orderly, Settled, RecordsOf, NotesSubmit;
    if |ls| > 0 {
      SettledIsThere(w, j);
      StepKeeps(w, ls[0]);
      SettledStep(w, ls[0], j);
      SettledStepGainsNothing(w, ls[0], j);
      SettledGainsNothing(Next(w, ls[0]), ls[1..], j);
    }
  }

  lemma SettledStepGainsNothing(w: World, l: Label, j: string)
    requires Settled(w, j) && Enabled(w, l)
    ensures Next(w, l).hist.strays[j] == w.hist.strays[j]
    ensures |RecordsOf(Next(w, l).env.store, j)| == |RecordsOf(w.env.store, j)|
  {
    match l
    case Serve(id, a) =>
      var op, v := w.ops[id], Next(w, l);
      var next := Resume(w.wired, op, ReplyTo(w.env, Request(op), a));
      ServeParts(w, id, a);
      TallyAfter(w, op, a, v, next);
      if Recording(op) && Effective(a) {
        AnswerableStores(w.env, op, a);
      }
      RecordsAfter(w, op, a, v, j);
      hide Next, Enabled, Resume, Request, ReplyTo, After, RecordsOf;
    case _ =>
  }

  // ---- why the assumptions are needed ----

  /** A client signature that arrives late reopens a terminal job: its state becomes the provider's word again, so the
      next poll no longer stops at the terminal check. On a COMPLETED job this breaks the assumptions; on a FAILED one
      it does not. */
  lemma LateSubmitReopens(w: World, id: nat, newID: string)
    requires id in w.ops && w.ops[id].InSubmit? && w.ops[id].s.SNote? && w.ops[id].jobID in w.env.store.jobs
    requires Terminal(w.env.store.jobs[w.ops[id].jobID].state) && !Terminal(w.ops[id].s.state)
    requires FreshId(w.env.store, newID)
    ensures var l := Serve(id, Answering(Served, newID, Ack));
            && Enabled(w, l) && (Orderly(w, l) <==> w.env.store.jobs[w.ops[id].jobID].state == FAILED)
            && var v := Next(w, l);
            && v.env.store.jobs[w.ops[id].jobID].state == w.ops[id].s.state
            && forall caller, token, wait :: Owned(v.env.store.jobs[w.ops[id].jobID], caller) ==>
                 Resume(w.wired, ReconcileOp(w.ops[id].jobID, wait, caller, token),
                        Apply(v.env.store, v.env.now, "", GetJob(w.ops[id].jobID)).1)
                 == InReconcile(w.ops[id].jobID, RStatus(v.env.store.jobs[w.ops[id].jobID], wait, token))
  {
    var v := Next(w, Serve(id, Answering(Served, newID, Ack)));
    var jobID, state := w.ops[id].jobID, w.ops[id].s.state;
    assert jobID in v.env.store.jobs && v.env.store.jobs[jobID].state == state;
    forall caller, token, wait | Owned(v.env.store.jobs[jobID], caller)
      ensures Resume(w.wired, ReconcileOp(jobID, wait, caller, token),
                     Apply(v.env.store, v.env.now, "", GetJob(jobID)).1)
              == InReconcile(jobID, RStatus(v.env.store.jobs[jobID], wait, token))
    {
      OpenJobIsPolled(w.wired, v.env.store, v.env.now, jobID, wait, caller, token);
    }
  }

  /** A poll of a job that is not terminal, by its owner, asks the provider. */
  lemma OpenJobIsPolled(wired: bool, s: StoreState, now: int, jobID: string, wait: int, caller: string, token: string)
    requires jobID in s.jobs && !Terminal(s.jobs[jobID].state) && Owned(s.jobs[jobID], caller)
    ensures Resume(wired, ReconcileOp(jobID, wait, caller, token), Apply(s, now, "", GetJob(jobID)).1)
            == InReconcile(jobID, RStatus(s.jobs[jobID], wait, token))
  {
  }

  /** Two passes over one job that both had their merge accepted record it twice. */
  lemma OverlappingPassesRecordTwice(w: World, i: nat, k: nat, a: string, b: string)
    requires i in w.ops && k in w.ops && i != k && Recording(w.ops[i]) && Recording(w.ops[k])
    requires w.ops[i].job.jobID == w.ops[k].job.jobID
    requires FreshId(w.env.store, a) && FreshId(w.env.store, b) && a != b
    ensures var first := Serve(i, Answering(Served, a, Ack));
            && Enabled(w, first)
            && var v := Next(w, first);
            var second := Serve(k, Answering(Served, b, Ack));
            && Enabled(v, second)
            && {a, b} <= RecordsOf(Next(v, second).env.store, w.ops[i].job.jobID)
  {
    ServeInserts(w, i, a);
    var v := Next(w, Serve(i, Answering(Served, a, Ack)));
    ServeInserts(v, k, b);
    hide Next, Enabled;
  }

  lemma ServeInserts(w: World, i: nat, a: string)
    requires i in w.ops && Recording(w.ops[i]) && FreshId(w.env.store, a)
    ensures var l := Serve(i, Answering(Served, a, Ack));
            && Enabled(w, l)
            && Next(w, l).env.store ==
                 w.env.store.(sigs :=
                   w.env.store.sigs[a := SignatureOf(a, SignatureInputOf(w.ops[i].job, w.ops[i].f.ref))])
            && forall k :: k in w.ops && k != i ==> k in Next(w, l).ops && Next(w, l).ops[k] == w.ops[k]
  {
  }

  /** The step notes another state than s on the job: a poll notes the provider's answer, a pass marks its job, or a
      client signature's state is noted. */
  predicate NotesOther(w: World, l: Label, j: string, s: State) {
    && l.Serve? && l.id in w.ops && Effective(l.a)
    && match w.ops[l.id]
       case InReconcile(jobID, r) => jobID == j && r.RNote? && r.st.state != s
       case InFinalize(job, _, f) => job.jobID == j && f.FMark? && s != COMPLETED
       case InSubmit(jobID, sub) => jobID == j && sub.SNote? && sub.state != s
       case _ => false
  }

  /** The ways out of a state are exactly these, in any run at all. */
  lemma StateIsLeftExactly(w: World, l: Label, j: string)
    requires Enabled(w, l) && j in w.env.store.jobs
    ensures j in Next(w, l).env.store.jobs
    ensures Next(w, l).env.store.jobs[j].state != w.env.store.jobs[j].state <==>
              NotesOther(w, l, j, w.env.store.jobs[j].state)
  {
    match l
    case Serve(id, a) =>
      var op, v := w.ops[id], Next(w, l);
      ServeParts(w, id, a);
      hide Next, Enabled, Resume, Request, ReplyTo, After;
      StatesAfter(w, op, a, v);
    case _ =>
  }

  /** FAILED is left exactly by a poll noting another answer, a pass marking its job, or a submission noting another
      state. */
  lemma FailedIsLeftExactly(w: World, l: Label, j: string)
    requires Enabled(w, l) && j in w.env.store.jobs && w.env.store.jobs[j].state == FAILED
    ensures j in Next(w, l).env.store.jobs
    ensures Next(w, l).env.store.jobs[j].state != FAILED <==> NotesOther(w, l, j, FAILED)
  {
    StateIsLeftExactly(w, l, j);
  }

  /** COMPLETED is left exactly by a poll or a submission noting another state. */
  lemma CompletedIsLeftExactly(w: World, l: Label, j: string)
    requires Enabled(w, l) && j in w.env.store.jobs && w.env.store.jobs[j].state == COMPLETED
    ensures j in Next(w, l).env.store.jobs
    ensures Next(w, l).env.store.jobs[j].state != COMPLETED <==>
              NotesOther(w, l, j, COMPLETED) && !w.ops[l.id].InFinalize?
  {
    StateIsLeftExactly(w, l, j);
  }

  ghost predicate Throughout(w: World, ls: seq<Label>, j: string, s: State)
    requires Legal(w, ls)
    decreases |ls|
  {
    && j in w.env.store.jobs && w.env.store.jobs[j].state == s
    && (|ls| > 0 ==> Throughout(Next(w, ls[0]), ls[1..], j, s))
  }

  ghost predicate NoneNotesOther(w: World, ls: seq<Label>, j: string, s: State)
    requires Legal(w, ls)
    decreases |ls|
  {
    |ls| > 0 ==> !NotesOther(w, ls[0], j, s) && NoneNotesOther(Next(w, ls[0]), ls[1..], j, s)
  }

  /** So a job keeps its state, be it FAILED or COMPLETED, all through a run exactly when no step of the run notes
      another one. */
  lemma {:induction false} StateStaysExactly(w: World, ls: seq<Label>, j: string)
    requires Legal(w, ls) && j in w.env.store.jobs
    ensures Throughout(w, ls, j, w.env.store.jobs[j].state) <==> NoneNotesOther(w, ls, j, w.env.store.jobs[j].state)
    decreases |ls|
  {
    hide Enabled, Next, NotesOther;
    if |ls| > 0 {
      StateIsLeftExactly(w, ls[0], j);
      if !NotesOther(w, ls[0], j, w.env.store.jobs[j].state) {
        StateStaysExactly(Next(w, ls[0]), ls[1..], j);
      }
    }
  }

  /** In any state, an earlier poll that is about to note another answer can undo a failure, without breaking any of the
      assumptions. */
  lemma FailureUndoneByEarlierPoll(w: World, id: nat, newID: string)
    requires id in w.ops && w.ops[id].InReconcile? && w.ops[id].r.RNote? && w.ops[id].jobID in w.env.store.jobs
    requires w.env.store.jobs[w.ops[id].jobID].state == FAILED && FreshId(w.env.store, newID)
    ensures var l := Serve(id, Answering(Served, newID, Ack));
            && Enabled(w, l) && Orderly(w, l)
            && Next(w, l).env.store.jobs[w.ops[id].jobID].state == w.ops[id].r.st.state
  {
  }
}
