/** Runs that exist, step by step from the empty system: an XAdES signing that gets recorded, and the ways its record or
    its job's state can surprise, each shown on a run of its own. They show that each thing OnceOnly assumes (polls that
    do not overlap, no late submission to a COMPLETED job, no COMPLETED from the provider) is needed, and that what
    Guarantees says of reachable worlds is said of something. */
module Witnesses {
  import opened Protocol
  import opened Binding
  import opened StoreSpec
  import opened Choreography
  import opened Solo
  import opened Worlds
  import opened Guarantees
  import opened Counting
  import opened OnceOnly

  // ---- runs, step by step ----

  /** Some run leads from w to v; with `orderly`, one that keeps to the assumptions of OnceOnly. */
  ghost predicate Leads(w: World, v: World, orderly: bool) {
    exists ls :: Legal(w, ls) && (orderly ==> OrderlyRun(w, ls)) && v == Play(w, ls)
  }

  lemma LeadsNowhere(w: World, orderly: bool)
    ensures Leads(w, w, orderly)
  {
    assert Legal(w, []) && OrderlyRun(w, []) && Play(w, []) == w;
  }

  lemma LeadsOn(w: World, v: World, l: Label, orderly: bool)
    requires Leads(w, v, orderly) && Enabled(v, l) && (orderly ==> Orderly(v, l))
    ensures Leads(w, Next(v, l), orderly)
  {
    hide Enabled, Next, Orderly;
    var ls :| Legal(w, ls) && (orderly ==> OrderlyRun(w, ls)) && v == Play(w, ls);
    OneMore(w, ls, l, orderly);
  }

  lemma {:induction false} OneMore(w: World, ls: seq<Label>, l: Label, orderly: bool)
    requires Legal(w, ls) && (orderly ==> OrderlyRun(w, ls))
    requires Enabled(Play(w, ls), l) && (orderly ==> Orderly(Play(w, ls), l))
    ensures Legal(w, ls + [l]) && (orderly ==> OrderlyRun(w, ls + [l])) && Play(w, ls + [l]) == Next(Play(w, ls), l)
    decreases |ls|
  {
    hide Enabled, Next, Orderly;
    if |ls| == 0 {
      assert ls + [l] == [l] && [l][1..] == [];
    } else {
      assert (ls + [l])[1..] == ls[1..] + [l];
      OneMore(Next(w, ls[0]), ls[1..], l, orderly);
    }
  }

  lemma LeadsThrough(w: World, v: World, u: World)
    requires Leads(w, v, false) && Leads(v, u, false)
    ensures Leads(w, u, false)
  {
    var ls :| Legal(w, ls) && v == Play(w, ls);
    var ms :| Legal(v, ms) && u == Play(v, ms);
    TwoRuns(w, ls, ms);
  }

  lemma {:induction false} TwoRuns(w: World, ls: seq<Label>, ms: seq<Label>)
    requires Legal(w, ls) && Legal(Play(w, ls), ms)
    ensures Legal(w, ls + ms) && Play(w, ls + ms) == Play(Play(w, ls), ms)
    decreases |ls|
  {
    hide Enabled, Next;
    if |ls| == 0 {
      assert ls + ms == ms;
    } else {
      assert (ls + ms)[1..] == ls[1..] + ms;
      TwoRuns(Next(w, ls[0]), ls[1..], ms);
    }
  }

  /** The operations after one of them went on. */
  function With(ops: map<nat, Op>, id: nat, op: Op): map<nat, Op> {
    if op.Done? then ops - {id} else ops[id := op]
  }

  lemma StartStep(w: World, v: World, id: nat, op: Op, orderly: bool) returns (u: World)
    requires Leads(w, v, orderly) && id !in v.ops && Startable(v.wired, op)
    requires orderly && op.InReconcile? ==> forall i :: i in v.ops ==> PassOf(v.ops[i]) != Some(op.jobID)
    ensures Leads(w, u, orderly) && u == v.(ops := v.ops[id := op])
  {
    u := Next(v, Start(id, op));
    hide Leads;
    LeadsOn(w, v, Start(id, op), orderly);
  }

  lemma StoreStep(w: World, v: World, id: nat, newID: string, orderly: bool) returns (u: World)
    requires Leads(w, v, orderly) && id in v.ops && !v.ops[id].Done? && Request(v.ops[id]).ToStore?
    requires FreshId(v.env.store, newID)
    requires orderly && v.ops[id].InSubmit? && v.ops[id].s.SNote? && v.ops[id].jobID in v.env.store.jobs ==>
      v.env.store.jobs[v.ops[id].jobID].state != COMPLETED
    ensures var op := v.ops[id];
            var (store, r) := Apply(v.env.store, v.env.now, newID, Request(op).s);
            && Leads(w, u, orderly) && u.wired == v.wired
            && u.env == v.env.(store := store) && u.ops == With(v.ops, id, Resume(v.wired, op, r))
  {
    var l := Serve(id, Answering(Served, newID, Ack));
    u := Next(v, l);
    hide Leads, Apply, Request, Resume, Note;
    LeadsOn(w, v, l, orderly);
  }

  lemma PortStep(w: World, v: World, id: nat, reply: Reply, orderly: bool) returns (u: World)
    requires Leads(w, v, orderly) && id in v.ops && !v.ops[id].Done? && Request(v.ops[id]).ToPort?
    requires PortAllows(v.env, Request(v.ops[id]).p, reply) && (orderly ==> !SaysCompleted(reply))
    requires !(v.ops[id].InSubmit? && v.ops[id].s.SNote?)
    ensures && Leads(w, u, orderly) && u.wired == v.wired
            && u.env == PortEffect(v.env, Request(v.ops[id]).p, reply)
            && u.ops == With(v.ops, id, Resume(v.wired, v.ops[id], reply))
  {
    var l := Serve(id, Answering(Served, "", reply));
    u := Next(v, l);
    hide Leads, PortAllows, PortEffect, Request, Resume, Note, SaysCompleted;
    LeadsOn(w, v, l, orderly);
  }

  // ---- a signing ----

  const START := Initial(false, true, 0)
  const PENDING := OtherState("PENDING")
  const INPUT := BeginInput("", "", WebEidFlow, XAdES, "doc", "ann", "", WebEid, "",
                            PrepareOptions("", "", "", "", "", ""))
  const META := Metadata(OtherKind("source"), "", OtherMime(""), "")

  function Status(state: State): Reply {
    Provider(StatusResult(state, [DocRef("doc", "", "", "url")], "", "", 0))
  }

  /** The job ann began on her document, in some state, and nothing else in the store but records. */
  predicate Stage(w: World, state: State) {
    && !w.wired && w.env.store.reports == map[]
    && "job" in w.env.store.jobs
    && var job := w.env.store.jobs["job"];
    && job.jobID == "job" && job.envelopeID == "" && job.sigFormat == XAdES && job.state == state
    && "job" in w.env.prepared && w.env.prepared["job"].docID == "doc"
    && "doc" in w.env.docs && w.env.docs["doc"].root == "doc"
    && "doc" in w.env.chains && |w.env.chains["doc"].content| > 0
    && forall id :: id in w.env.docs ==> w.env.docs[id].root == "doc" && (id != "doc" ==> w.env.docs[id].container)
  }

  /** A document is uploaded. */
  lemma WithDoc(w: World, orderly: bool) returns (v: World)
    requires w.env.chains == map[] && w.env.docs == map[]
    ensures Leads(w, v, orderly) && v == w.(env := Uploaded(w.env, "doc", {}, false))
  {
    LeadsNowhere(w, orderly);
    v := Next(w, Upload("doc", {}, false));
    hide Leads;
    LeadsOn(w, w, Upload("doc", {}, false), orderly);
  }

  /** From nothing to a saved job. */
  lemma Begun() returns (v: World)
    ensures Leads(START, v, true) && Stage(v, PENDING) && v.ops == map[] && v.env.store.sigs == map[]
  {
    hide Leads, BeginOp;
    v := Described();
    v := Taken(v);
    v := Saved(v);
  }

  /** A Begin that has read the document's metadata. */
  lemma Described() returns (v: World)
    ensures Leads(START, v, true) && v.ops == map[0 := InBegin(INPUT, BPrepare("doc", META, []))] && v.wired == false
    ensures v.env == Uploaded(START.env, "doc", {}, false)
  {
    v := WithDoc(START, true);
    hide Leads;
    assert BeginOp(false, INPUT) == InBegin(INPUT, BMeta("doc"));
    v := StartStep(START, v, 0, InBegin(INPUT, BMeta("doc")), true);
    v := PortStep(START, v, 0, Meta(META), true);
    assert v.ops == map[0 := InBegin(INPUT, BPrepare("doc", META, []))];
  }

  const PREP := PrepareResult("job", PENDING, "", "", [])

  /** The provider takes the job. */
  lemma Taken(v: World) returns (u: World)
    requires Leads(START, v, true) && v.ops == map[0 := InBegin(INPUT, BPrepare("doc", META, []))]
    requires v.wired == false && v.env.prepared == map[]
    ensures Leads(START, u, true) && u.ops == map[0 := InBegin(INPUT, BSave(META, PREP))] && u.wired == false
    ensures u.env == v.env.(prepared := map["job" := Preparation(XAdES, "doc", None)])
  {
    hide Leads;
    u := PortStep(START, v, 0, Prepared(PREP), true);
  }

  lemma Saved(v: World) returns (u: World)
    requires Leads(START, v, true) && v.ops == map[0 := InBegin(INPUT, BSave(META, PREP))] && v.wired == false
    requires v.env == Uploaded(START.env, "doc", {}, false).(prepared := map["job" := Preparation(XAdES, "doc", None)])
    ensures Leads(START, u, true) && Stage(u, PENDING) && u.ops == map[] && u.env.store.sigs == map[]
  {
    hide Leads;
    u := StoreStep(START, v, 0, "n", true);
  }

  /** A poll that reads the job and asks the provider, and has not yet noted the answer. */
  lemma Polled(w: World, v: World, id: nat, from: State, said: State, newID: string, orderly: bool) returns (u: World)
    requires Leads(w, v, orderly) && Stage(v, from) && !Terminal(from) && id !in v.ops
    requires orderly ==> said != COMPLETED
    requires orderly ==> forall i :: i in v.ops ==> PassOf(v.ops[i]) != Some("job")
    requires FreshId(v.env.store, newID)
    ensures Leads(w, u, orderly) && u.env == v.env && u.wired == v.wired
    ensures u.ops == v.ops[id := InReconcile("job", RNote(v.env.store.jobs["job"], "", Status(said).status))]
  {
    hide Leads;
    var job := v.env.store.jobs["job"];
    u := StartStep(w, v, id, ReconcileOp("job", 0, "", ""), orderly);
    u := StoreStep(w, u, id, newID, orderly);
    assert u.ops[id] == InReconcile("job", RStatus(job, 0, ""));
    u := PortStep(w, u, id, Status(said), orderly);
  }

  /** A client signature the provider has answered, with the answer not yet noted. */
  lemma Submitted(w: World, v: World, id: nat, from: State, said: State, newID: string, orderly: bool)
    returns (u: World)
    requires Leads(w, v, orderly) && Stage(v, from) && said != COMPLETED && id !in v.ops
    requires FreshId(v.env.store, newID)
    ensures Leads(w, u, orderly) && u.env == v.env && u.wired == v.wired
    ensures u.ops == v.ops[id := InSubmit("job", SNote(said))]
  {
    hide Leads, ResumeBegin, ResumeFinalize, ResumeReconcile, ResumeValidation, BeginCall, FinalizeCall, ValidationCall;
    u := StartStep(w, v, id, SubmitOp("job", [], ""), orderly);
    u := StoreStep(w, u, id, newID, orderly);
    assert u.ops[id] == InSubmit("job", SSubmit([]));
    u := PortStep(w, u, id, Status(said), orderly);
  }

  lemma PassSteps(job: Job, ref: string)
    requires job.sigFormat == XAdES
    ensures Resume(false, InReconcile("job", RNote(job, "", Status(READY).status)), Ack) ==
            InFinalize(job, "", FDownload("doc"))
    ensures Resume(false, InFinalize(job, "", FDownload("doc")), Blob(Fileless("job"))) ==
            InFinalize(job, "", FComplete("doc", Fileless("job"), 0))
    ensures Resume(false, InFinalize(job, "", FComplete("doc", Fileless("job"), 0)), NewId(ref)) ==
            InFinalize(job, "", FInsert(ref))
  {
    assert FirstReady(Status(READY).status.documents) == Some("doc");
  }

  /** A pass that has noted READY and is about to fetch its artifact. */
  lemma Noted(w: World, v: World, id: nat, from: State, newID: string, orderly: bool) returns (u: World)
    requires Leads(w, v, orderly) && Stage(v, from) && !Terminal(from) && id !in v.ops
    requires orderly ==> forall i :: i in v.ops ==> PassOf(v.ops[i]) != Some("job")
    requires FreshId(v.env.store, newID)
    ensures Leads(w, u, orderly) && Stage(u, READY)
    ensures u.env.store.sigs == v.env.store.sigs
    ensures u.ops == v.ops[id := InFinalize(v.env.store.jobs["job"], "", FDownload("doc"))]
  {
    PassSteps(v.env.store.jobs["job"], "");
    u := Polled(w, v, id, from, READY, newID, orderly);
    hide Leads, Resume, PassOf;
    u := StoreStep(w, u, id, newID, orderly);
  }

  lemma SameStage(v: World, u: World)
    requires Stage(v, READY) && u.env == v.env && u.wired == v.wired
    ensures Stage(u, READY)
  {
  }

  /** It fetches its container; nothing else changes. */
  lemma Fetched(w: World, v: World, id: nat, job: Job, orderly: bool) returns (u: World)
    requires Leads(w, v, orderly) && Stage(v, READY) && job.sigFormat == XAdES && job.jobID == "job"
    requires id in v.ops && v.ops[id] == InFinalize(job, "", FDownload("doc"))
    ensures Leads(w, u, orderly) && u.env == v.env && u.wired == v.wired
    ensures u.ops == v.ops[id := InFinalize(job, "", FComplete("doc", Fileless("job"), 0))]
  {
    PassSteps(job, "");
    hide Leads, Resume;
    u := PortStep(w, v, id, Blob(Fileless("job")), orderly);
  }

  /** The document service merges it. */
  lemma Accepted(w: World, v: World, id: nat, job: Job, ref: string, orderly: bool) returns (u: World)
    requires Leads(w, v, orderly) && Stage(v, READY) && job.sigFormat == XAdES && ref !in {"", "doc"}
    requires id in v.ops && v.ops[id] == InFinalize(job, "", FComplete("doc", Fileless("job"), 0))
    ensures Leads(w, u, orderly) && Stage(u, READY) && u.env.store == v.env.store
    ensures u.ops == v.ops[id := InFinalize(job, "", FInsert(ref))]
  {
    PassSteps(job, ref);
    MergeFits(v.env, job, ref);
    hide Leads, Resume, PortAllows, PortEffect, SaysCompleted;
    u := PortStep(w, v, id, NewId(ref), orderly);
    MergeKeepsStage(v, u, job, ref);
  }

  lemma MergeFits(e: Env, job: Job, ref: string)
    requires "doc" in e.docs && e.docs["doc"].root in e.chains && |e.chains[e.docs["doc"].root].content| > 0
    requires ref !in {"", "doc"} && (ref in e.docs ==> e.docs[ref].root == e.docs["doc"].root && e.docs[ref].container)
    ensures PortAllows(e, Complete("doc", Fileless("job"), OnBehalf(job.callerSub, "")), NewId(ref))
    ensures !SaysCompleted(NewId(ref))
  {
  }

  lemma MergeKeepsStage(v: World, u: World, job: Job, ref: string)
    requires Stage(v, READY) && ref !in {"", "doc"} && u.wired == v.wired
    requires var p := Complete("doc", Fileless("job"), OnBehalf(job.callerSub, ""));
             PortAllows(v.env, p, NewId(ref)) && u.env == PortEffect(v.env, p, NewId(ref))
    ensures Stage(u, READY) && u.env.store == v.env.store
  {
  }

  /** A pass that has its container merged and is about to record it. */
  lemma Merged(w: World, v: World, id: nat, from: State, ref: string, newID: string, orderly: bool) returns (u: World)
    requires Leads(w, v, orderly) && Stage(v, from) && !Terminal(from) && id !in v.ops
    requires orderly ==> forall i :: i in v.ops ==> PassOf(v.ops[i]) != Some("job")
    requires FreshId(v.env.store, newID) && ref !in {"", "doc"}
    ensures Leads(w, u, orderly) && Stage(u, READY)
    ensures u.env.store.sigs == v.env.store.sigs
    ensures u.ops == v.ops[id := InFinalize(v.env.store.jobs["job"], "", FInsert(ref))]
  {
    var job := v.env.store.jobs["job"];
    assert job.sigFormat == XAdES && job.jobID == "job";
    hide Leads, FreshId, PassOf, Stage;
    var noted := Noted(w, v, id, from, newID, orderly);
    u := Fetched(w, noted, id, job, orderly);
    SameStage(noted, u);
    u := Accepted(w, u, id, job, ref, orderly);
  }

  /** And records it. */
  lemma Recorded(w: World, v: World, id: nat, ref: string, sigID: string, orderly: bool) returns (u: World)
    requires Leads(w, v, orderly) && Stage(v, READY) && FreshId(v.env.store, sigID)
    requires id in v.ops && v.ops[id].InFinalize? && v.ops[id].f == FInsert(ref) && v.ops[id].job.jobID == "job"
    ensures Leads(w, u, orderly) && Stage(u, READY)
    ensures u.env.store.sigs.Keys == v.env.store.sigs.Keys + {sigID} && u.env.store.sigs[sigID].jobID == "job"
    ensures forall s :: s in v.env.store.sigs ==> u.env.store.sigs[s] == v.env.store.sigs[s]
    ensures u.ops == v.ops[id := InFinalize(v.ops[id].job, v.ops[id].token, FMark(ref, sigID))]
  {
    hide Leads;
    u := StoreStep(w, v, id, sigID, orderly);
  }

  // ---- what can happen ----

  /** A signing does get recorded and completed. */
  lemma Completed() returns (v: World)
    ensures Leads(START, v, true) && Stage(v, COMPLETED)
    ensures v.env.store.sigs.Keys == {"s"} && v.env.store.sigs["s"].jobID == "job" && 2 !in v.ops
  {
    v := Begun();
    hide Leads, Initial;
    v := Merged(START, v, 1, PENDING, "c", "n", true);
    v := Recorded(START, v, 1, "c", "s", true);
    v := StoreStep(START, v, 1, "n", true);
  }

  /** In an orderly run, a job can be FAILED and later not: the client's signature failed while a poll was on its way to
      note that the provider was still at work. */
  lemma FailedIsNotAbsorbing() returns (v: World, u: World)
    ensures ReachedOrderly(v) && "job" in v.env.store.jobs && v.env.store.jobs["job"].state == FAILED
    ensures Leads(v, u, true) && "job" in u.env.store.jobs && u.env.store.jobs["job"].state == PENDING
  {
    var w := START;
    v := Begun();
    v := Polled(w, v, 1, PENDING, PENDING, "n", true);
    v := Submitted(w, v, 2, PENDING, FAILED, "n", true);
    v := StoreStep(w, v, 2, "n", true);
    IsReachedOrderly(v);
    LeadsNowhere(v, true);
    hide Leads, ReachedOrderly;
    u := StoreStep(v, v, 1, "n", true);
  }

  /** And with nothing in flight at all: a job that failed is reopened by a client signature that arrives late. */
  lemma FailedCanBeReopened() returns (v: World, u: World)
    ensures ReachedOrderly(v) && "job" in v.env.store.jobs && v.env.store.jobs["job"].state == FAILED && v.ops == map[]
    ensures Leads(v, u, true) && "job" in u.env.store.jobs && u.env.store.jobs["job"].state == PENDING
  {
    v := Begun();
    v := Submitted(START, v, 2, PENDING, FAILED, "n", true);
    v := StoreStep(START, v, 2, "n", true);
    assert Stage(v, FAILED);
    IsReachedOrderly(v);
    LeadsNowhere(v, true);
    hide Leads, ReachedOrderly;
    u := Submitted(v, v, 2, FAILED, PENDING, "n", true);
    u := StoreStep(v, u, 2, "n", true);
  }

  /** A completed job can be reopened by a client signature that arrives late. */
  lemma CompletedCanBeReopened() returns (v: World, u: World)
    ensures ReachedOrderly(v) && "job" in v.env.store.jobs && v.env.store.jobs["job"].state == COMPLETED
    ensures Leads(v, u, false) && "job" in u.env.store.jobs && u.env.store.jobs["job"].state == PENDING
  {
    v := Completed();
    IsReachedOrderly(v);
    LeadsNowhere(v, false);
    hide Leads, ReachedOrderly;
    u := Submitted(v, v, 2, COMPLETED, PENDING, "n", false);
    u := StoreStep(v, u, 2, "n", false);
  }

  /** A provider that reports the conductor's own COMPLETED makes a job COMPLETED that has no record, and that polls no
      longer look after. */
  lemma CompletedWithoutRecord() returns (v: World)
    ensures Reached(v) && "job" in v.env.store.jobs && v.env.store.jobs["job"].state == COMPLETED
    ensures RecordsOf(v.env.store, "job") == {} && v.ops == map[]
  {
    v := Begun();
    LeadsAnyway(START, v);
    v := Polled(START, v, 1, PENDING, COMPLETED, "n", false);
    hide Leads, Reached;
    v := StoreStep(START, v, 1, "n", false);
    IsReached(v);
  }

  lemma LeadsAnyway(w: World, v: World)
    requires Leads(w, v, true)
    ensures Leads(w, v, false)
  {
  }

  /** Two overlapping polls, each with its merge accepted. */
  lemma MergedTwice() returns (v: World)
    ensures Leads(START, v, false) && Stage(v, READY) && v.env.store.sigs == map[]
    ensures v.ops.Keys == {1, 2}
    ensures v.ops[1].InFinalize? && v.ops[1].f == FInsert("c") && v.ops[1].job.jobID == "job"
    ensures v.ops[2].InFinalize? && v.ops[2].f == FInsert("d") && v.ops[2].job.jobID == "job"
  {
    v := Begun();
    LeadsAnyway(START, v);
    hide Leads, Initial;
    v := Merged(START, v, 1, PENDING, "c", "n", false);
    v := Merged(START, v, 2, READY, "d", "n", false);
  }

  /** They record one signing twice, with neither having stopped. */
  lemma RecordedTwice() returns (v: World)
    ensures Reached(v)
    ensures RecordsOf(v.env.store, "job") == {"s", "t"}
    ensures 1 in v.ops && Marking(v.ops[1]) && 2 in v.ops && Marking(v.ops[2])
  {
    v := MergedTwice();
    hide Leads, Initial;
    v := Recorded(START, v, 1, "c", "s", false);
    v := Recorded(START, v, 2, "d", "t", false);
    IsReached(v);
  }

  lemma IsReached(v: World)
    requires Leads(START, v, false)
    ensures Reached(v)
  {
  }

  lemma IsReachedOrderly(v: World)
    requires Leads(START, v, true)
    ensures ReachedOrderly(v)
  {
  }
}
