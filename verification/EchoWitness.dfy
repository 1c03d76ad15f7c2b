/** What hangs on the provider's echo of document ids: with it the guarantees that rest on the CAS hold in every run,
    without it each of them is broken by a run given here, step by step from the empty system. */
module EchoWitnesses {
  import opened Protocol
  import opened Binding
  import opened StoreSpec
  import opened Choreography
  import opened Solo
  import opened Worlds
  import opened Invariants
  import opened Steps
  import opened Guarantees
  import opened Witnesses
  import opened PdfWitnesses

  // ---- a provider that does not echo ----

  function Mute(wired: bool): World {
    Initial(wired, false, 0)
  }

  /** A Begin without an envelope, past the metadata. */
  lemma Opened(w: World, v: World, id: nat, slot: string) returns (u: World)
    requires Leads(w, v, false) && id !in v.ops && "doc" in v.env.docs && !v.env.docs["doc"].container
    ensures Leads(w, u, false) && u.wired == v.wired && u.env == v.env
    ensures u.ops == v.ops[id := InBegin(Input("", slot), BContent("doc", PDF))]
  {
    var input := Input("", slot);
    assert BeginOp(v.wired, input) == InBegin(input, BMeta("doc"));
    hide Leads;
    u := StartStep(w, v, id, InBegin(input, BMeta("doc")), false);
    u := PortStep(w, u, id, Meta(PDF), false);
  }

  function TwoJobs(a: State, b: State): map<string, Job> {
    map["jobA" := JobFor("", "a", "jobA", a, 0), "jobB" := JobFor("", "b", "jobB", b, 0)]
  }

  const BOTH := map["jobA" := Preparation(PAdES, "doc", Some(BASE)), "jobB" := Preparation(PAdES, "doc", Some(BASE))]

  /** Two signings prepared over the same version. */
  lemma TwoOpened(wired: bool) returns (v: World)
    ensures Leads(Mute(wired), v, false) && v.ops == map[]
    ensures v.env == Env(
      StoreState(TwoJobs(PENDING, PENDING), map[], map[], map[]), 0, false,
      map["doc" := Chain([], [{}])], map["doc" := DocAt("doc", 0, false)], BOTH)
  {
    v := WithDoc(Mute(wired), false);
    hide Leads;
    v := Opened(Mute(wired), v, 1, "a");
    v := Handed(Mute(wired), v, 1, Input("", "a"), "jobA");
    v := PdfWitnesses.Saved(Mute(wired), v, 1, "", "a", "jobA");
    v := Opened(Mute(wired), v, 2, "b");
    v := Handed(Mute(wired), v, 2, Input("", "b"), "jobB");
    v := PdfWitnesses.Saved(Mute(wired), v, 2, "", "b", "jobB");
  }

  lemma Inserted(w: World, v: World, id: nat, job: Job, ref: string, sigID: string) returns (u: World)
    requires Leads(w, v, false) && FreshId(v.env.store, sigID)
    requires id in v.ops && v.ops[id] == InFinalize(job, "", FInsert(ref))
    ensures Leads(w, u, false) && u.wired == v.wired && u.ops == v.ops[id := InFinalize(job, "", FMark(ref, sigID))]
    ensures u.env == v.env.(store := v.env.store.(sigs :=
              v.env.store.sigs[sigID := SignatureOf(sigID, SignatureInputOf(job, ref))]))
  {
    hide Leads;
    u := StoreStep(w, v, id, sigID, false);
  }

  const JOB_A := JobFor("", "a", "jobA", PENDING, 0)
  const JOB_B := JobFor("", "b", "jobB", PENDING, 0)

  /** The first is accepted: the chain carries its signature. */
  predicate AfterFirst(v: World) {
    && v.env == Env(
         StoreState(TwoJobs(PENDING, READY), map[], map[], map[]), 0, false,
         map["doc" := Chain([PdfCommit("jobB")], [{}, {"jobB"}])],
         map["doc" := DocAt("doc", 0, false), "pdfB" := DocAt("doc", 1, false)], BOTH)
    && v.ops == map[3 := InFinalize(JOB_B, "", FInsert("pdfB"))]
  }

  lemma FirstAccepted(wired: bool) returns (v: World)
    ensures Leads(Mute(wired), v, false) && AfterFirst(v)
  {
    v := TwoOpened(wired);
    hide Leads;
    v := PdfWitnesses.Polled(Mute(wired), v, 3, JOB_B, "doc");
    v := AtStore(Mute(wired), v, 3, JOB_B, "doc", BASE);
    FirstCommit(v.env);
    v := PdfWitnesses.Accepted(Mute(wired), v, 3, JOB_B, "doc", BASE, "pdfB");
  }

  /** The second is stored, as the provider would have it, against the document the first has become: the CAS is
      satisfied. */
  lemma SecondAccepted(v: World) returns (u: World)
    requires AfterFirst(v)
    ensures Leads(v, u, false) && u.env.store.sigs == map[] && u.env.store.reports == map[]
    ensures u.env.chains == map["doc" := Chain([PdfCommit("jobB"), PdfCommit("jobA")], [{}, {"jobB"}, {"jobA"}])]
    ensures u.env.prepared == BOTH
    ensures u.ops == v.ops[4 := InFinalize(JOB_A, "", FInsert("pdfA"))]
  {
    LeadsNowhere(v, false);
    hide Leads;
    u := PdfWitnesses.Polled(v, v, 4, JOB_A, "pdfB");
    u := AtStore(v, u, 4, JOB_A, "pdfB", BASE);
    SecondCommit(u.env, "pdfA", "jobA");
    u := PdfWitnesses.Accepted(v, u, 4, JOB_A, "pdfB", BASE, "pdfA");
  }

  /** What is stored carries the second signature only. */
  lemma SecondCommit(e: Env, id: string, j: string)
    requires e.chains == map["doc" := Chain([PdfCommit("jobB")], [{}, {"jobB"}])]
    ensures Committed(e, "doc", id, PdfCommit(j), SignaturesIn(e, SignedPdf(j, BASE))).chains ==
            map["doc" := Chain([PdfCommit("jobB"), PdfCommit(j)], [{}, {"jobB"}, {j}])]
  {
    assert SignaturesIn(e, BASE) == {};
    assert SignaturesIn(e, SignedPdf(j, BASE)) == {j};
    assert [PdfCommit("jobB")] + [PdfCommit(j)] == [PdfCommit("jobB"), PdfCommit(j)];
    assert [{}, {"jobB"}] + [{j}] == [{}, {"jobB"}, {j}];
  }

  /** So the first signature is gone. */
  lemma SignatureLost(wired: bool) returns (v: World, u: World)
    ensures Leads(Mute(wired), v, false) && Leads(v, u, false) && "doc" in v.env.chains
    ensures "jobB" in Carried(v.env, "doc") && "jobB" !in Carried(u.env, "doc")
  {
    v := FirstAccepted(wired);
    hide Leads;
    u := SecondAccepted(v);
  }

  /** The second signing was superseded and is recorded all the same; and so is the first, over the same version. */
  lemma LoserRecords(wired: bool) returns (v: World, u: World)
    ensures Leads(Mute(wired), v, false) && Superseded(v.env, "jobA") && Leads(v, u, false)
    ensures u.env.store.sigs.Keys == {"s", "t"} && u.env.prepared == BOTH
    ensures u.env.store.sigs["s"].jobID == "jobB" && u.env.store.sigs["s"].sigFormat == PAdES
    ensures u.env.store.sigs["t"].jobID == "jobA" && u.env.store.sigs["t"].sigFormat == PAdES
  {
    v := FirstAccepted(wired);
    hide Leads;
    assert v.env.chains["doc"].commits[0] == PdfCommit("jobB");
    u := SecondAccepted(v);
    u := Inserted(v, u, 3, JOB_B, "pdfB", "s");
    u := Inserted(v, u, 4, JOB_A, "pdfA", "t");
  }

  /** Two overlapping polls of one signing, the second told that the document it is about is what the first stored: both
      are accepted, and both record. */
  lemma PdfRecordedTwice(wired: bool) returns (v: World)
    ensures Leads(Mute(wired), v, false)
    ensures v.env.store.sigs.Keys == {"s", "t"}
    ensures v.env.store.sigs["s"].jobID == "jobB" && v.env.store.sigs["s"].sigFormat == PAdES
    ensures v.env.store.sigs["t"].jobID == "jobB" && v.env.store.sigs["t"].sigFormat == PAdES
  {
    v := BothPolled(wired);
    hide Leads;
    v := AtStore(Mute(wired), v, 3, JOB_B, "doc", BASE);
    FirstCommit(v.env);
    v := PdfWitnesses.Accepted(Mute(wired), v, 3, JOB_B, "doc", BASE, "pdfB");
    v := AgainAccepted(wired, v);
    v := Inserted(Mute(wired), v, 3, JOB_B, "pdfB", "s");
    v := Inserted(Mute(wired), v, 4, JOB_B, "pdfC", "t");
  }

  lemma BothPolled(wired: bool) returns (v: World)
    ensures Leads(Mute(wired), v, false)
    ensures v.env == Env(
      StoreState(TwoJobs(PENDING, PENDING), map[], map[], map[]), 0, false,
      map["doc" := Chain([], [{}])], map["doc" := DocAt("doc", 0, false)], BOTH)
    ensures v.ops == map[3 := InReconcile("jobB", RNote(JOB_B, "", Ready("doc"))),
                         4 := InReconcile("jobB", RNote(JOB_B, "", Ready("pdfB")))]
  {
    v := TwoOpened(wired);
    hide Leads;
    v := PdfWitnesses.Polled(Mute(wired), v, 3, JOB_B, "doc");
    v := PdfWitnesses.Polled(Mute(wired), v, 4, JOB_B, "pdfB");
  }

  lemma AgainAccepted(wired: bool, v: World) returns (u: World)
    requires Leads(Mute(wired), v, false) && Calm(v) && v.env.store.jobs == TwoJobs(PENDING, READY)
    requires v.env.prepared == BOTH && v.env.chains == map["doc" := Chain([PdfCommit("jobB")], [{}, {"jobB"}])]
    requires v.env.docs == map["doc" := DocAt("doc", 0, false), "pdfB" := DocAt("doc", 1, false)]
    requires 4 in v.ops && v.ops[4] == InReconcile("jobB", RNote(JOB_B, "", Ready("pdfB")))
    ensures Leads(Mute(wired), u, false) && u.ops == v.ops[4 := InFinalize(JOB_B, "", FInsert("pdfC"))]
    ensures u.env.store.sigs == v.env.store.sigs && u.env.store.reports == v.env.store.reports
  {
    hide Leads;
    u := AtStore(Mute(wired), v, 4, JOB_B, "pdfB", BASE);
    u := PdfWitnesses.Accepted(Mute(wired), u, 4, JOB_B, "pdfB", BASE, "pdfC");
  }

  // ---- what hangs on the echo ----

  /** No run of such a system ever takes a signature off a chain. */
  ghost predicate NeverLoses(wired: bool, echoes: bool) {
    forall now, v, u, root ::
      Leads(Initial(wired, echoes, now), v, false) && Leads(v, u, false) && root in v.env.chains ==>
        Carried(v.env, root) <= Carried(u.env, root)
  }

  /** Whether the CAS on the parent's id protects a chain hangs on the provider alone: it does exactly when the provider
      echoes the document ids its jobs were prepared for. */
  lemma EchoIsExactlyWhatIsNeeded(wired: bool, echoes: bool)
    ensures NeverLoses(wired, echoes) <==> echoes
  {
    if echoes {
      forall now, v, u, root |
        Leads(Initial(wired, echoes, now), v, false) && Leads(v, u, false) && root in v.env.chains
        ensures Carried(v.env, root) <= Carried(u.env, root)
      {
        Grown(Initial(wired, echoes, now), v, u, root);
      }
    } else {
      var v, u := SignatureLost(wired);
      hide Leads, Carried;
    }
  }

  /** No run of such a system ever records a signing that was superseded. */
  ghost predicate NeverRecordsLosers(wired: bool, echoes: bool) {
    forall now, v, u, j, s ::
      Leads(Initial(wired, echoes, now), v, false) && Leads(v, u, false) && Superseded(v.env, j) ==>
        s in u.env.store.sigs ==> u.env.store.sigs[s].jobID != j
  }

  /** No run of such a system records two PAdES signings over the same bytes. */
  ghost predicate OneWinner(wired: bool, echoes: bool) {
    forall now, v, s, t ::
      Leads(Initial(wired, echoes, now), v, false) && SameBase(v, s, t) ==> s == t
  }

  predicate SameBase(v: World, s: string, t: string) {
    && s in v.env.store.sigs && t in v.env.store.sigs
    && v.env.store.sigs[s].sigFormat == PAdES && v.env.store.sigs[t].sigFormat == PAdES
    && v.env.store.sigs[s].jobID in v.env.prepared && v.env.store.sigs[t].jobID in v.env.prepared
    && v.env.prepared[v.env.store.sigs[s].jobID].file == v.env.prepared[v.env.store.sigs[t].jobID].file
  }

  /** No run of such a system records a PAdES signing twice. */
  ghost predicate RecordsPdfOnce(wired: bool, echoes: bool) {
    forall now, v, s, t ::
      Leads(Initial(wired, echoes, now), v, false) && SamePdf(v, s, t) ==> s == t
  }

  predicate SamePdf(v: World, s: string, t: string) {
    && s in v.env.store.sigs && t in v.env.store.sigs && v.env.store.sigs[s].sigFormat == PAdES
    && v.env.store.sigs[s].jobID == v.env.store.sigs[t].jobID
  }

  /** The other guarantees that rest on the CAS hang on the echo in the same way. */
  lemma LosersAreUnrecordedExactly(wired: bool, echoes: bool)
    ensures NeverRecordsLosers(wired, echoes) <==> echoes
  {
    if echoes {
      forall now, v, u, j, s |
        Leads(Initial(wired, echoes, now), v, false) && Leads(v, u, false) && Superseded(v.env, j)
        && s in u.env.store.sigs
        ensures u.env.store.sigs[s].jobID != j
      {
        LoserUnrecorded(Initial(wired, echoes, now), v, u, j, s);
      }
    } else {
      var v, u := LoserRecords(wired);
      hide Leads, Superseded;
      assert "t" in u.env.store.sigs.Keys;
    }
  }

  lemma LoserUnrecorded(w: World, v: World, u: World, j: string, s: string)
    requires w == Initial(w.wired, true, w.env.now)
    requires Leads(w, v, false) && Leads(v, u, false) && Superseded(v.env, j) && s in u.env.store.sigs
    ensures u.env.store.sigs[s].jobID != j
  {
    hide Superseded, Legal, Play;
    var ls :| Legal(v, ls) && u == Play(v, ls);
    assert Reached(v);
    EchoesStay(w, v);
    SupersededNeverRecords(v, ls, j);
  }

  lemma OneWinnerExactly(wired: bool, echoes: bool)
    ensures OneWinner(wired, echoes) <==> echoes
  {
    if echoes {
      forall now, v, s, t | Leads(Initial(wired, echoes, now), v, false) && SameBase(v, s, t) ensures s == t {
        IsOneWinner(Initial(wired, echoes, now), v, s, t);
      }
    } else {
      var v, u := LoserRecords(wired);
      assert Leads(Mute(wired), u, false) by {
        LeadsThrough(Mute(wired), v, u);
      }
      hide Leads, Superseded;
      assert SameBase(u, "s", "t") by {
        assert "s" in u.env.store.sigs.Keys && "t" in u.env.store.sigs.Keys;
      }
    }
  }

  lemma IsOneWinner(w: World, v: World, s: string, t: string)
    requires w == Initial(w.wired, true, w.env.now) && Leads(w, v, false) && SameBase(v, s, t)
    ensures s == t
  {
    hide Legal, Play;
    assert Reached(v);
    EchoesStay(w, v);
    OneWinnerPerBase(v, s, t);
  }

  lemma PdfIsRecordedOnceExactly(wired: bool, echoes: bool)
    ensures RecordsPdfOnce(wired, echoes) <==> echoes
  {
    if echoes {
      forall now, v, s, t | Leads(Initial(wired, echoes, now), v, false) && SamePdf(v, s, t) ensures s == t {
        IsRecordedOnce(Initial(wired, echoes, now), v, s, t);
      }
    } else {
      var v := PdfRecordedTwice(wired);
      hide Leads;
      assert SamePdf(v, "s", "t") by {
        assert "s" in v.env.store.sigs.Keys && "t" in v.env.store.sigs.Keys;
      }
    }
  }

  lemma IsRecordedOnce(w: World, v: World, s: string, t: string)
    requires w == Initial(w.wired, true, w.env.now) && Leads(w, v, false) && SamePdf(v, s, t)
    ensures s == t
  {
    hide Legal, Play;
    assert Reached(v);
    EchoesStay(w, v);
    PdfRecordedAtMostOnce(v, s, t);
  }

  lemma Grown(w: World, v: World, u: World, root: string)
    requires w == Initial(w.wired, true, w.env.now)
    requires Leads(w, v, false) && Leads(v, u, false) && root in v.env.chains
    ensures Carried(v.env, root) <= Carried(u.env, root)
  {
    hide Carried, Legal, Play;
    var ls :| Legal(v, ls) && u == Play(v, ls);
    assert Reached(v);
    EchoesStay(w, v);
    SignaturesOnlyGrow(v, ls, root);
  }

  lemma EchoesStay(w: World, v: World)
    requires w == Initial(w.wired, w.env.echoes, w.env.now) && Leads(w, v, false)
    ensures v.env.echoes == w.env.echoes
  {
    hide Legal, Play;
    var ls :| Legal(w, ls) && v == Play(w, ls);
    InitialOK(w.wired, w.env.echoes, w.env.now);
    RunKeeps(w, ls);
  }
}
