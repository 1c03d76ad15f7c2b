/** How often a signing is recorded, in every run at all: polls may overlap, client signatures arrive late, providers
    report what they like. Every record is accounted for by a mark, by a pass that stopped between recording and
    marking, or by a pass that is there now; and a second record is made exactly when a pass records a signing that is
    accounted for already. */
module Counting {
  import opened Protocol
  import opened StoreSpec
  import opened Choreography
  import opened Solo
  import opened Worlds
  import opened Reachable
  import opened Steps
  import opened Guarantees

  function RecordsOf(s: StoreState, j: string): set<string> {
    set id | id in s.sigs && s.sigs[id].jobID == j
  }

  /** The pass has recorded j's signature and not yet marked j. */
  predicate Owes(op: Op, j: string) {
    Marking(op) && op.job.jobID == j
  }

  /** The passes between recording and marking. */
  function InFlight(w: World, j: string): set<nat> {
    set i | i in w.ops && Owes(w.ops[i], j)
  }

  /** What accounts for j's records. */
  function Accounted(w: World, j: string): nat {
    w.hist.marks[j] + w.hist.strays[j] + |InFlight(w, j)|
  }

  ghost predicate CountOK(w: World, j: string) {
    |RecordsOf(w.env.store, j)| == Accounted(w, j)
  }

  // ---- one step ----

  /** The marks and strays after a step. */
  lemma TallyAfter(w: World, op: Op, a: Answering, v: World, next: Op)
    requires !op.Done? && After(w, op, a, v)
    requires next == Resume(w.wired, op, ReplyTo(w.env, Request(op), a))
    ensures v.hist.marks == if Marking(op) && Effective(a) then w.hist.marks + multiset{op.job.jobID} else w.hist.marks
    ensures v.hist.strays ==
      if (Marking(op) && !Effective(a)) || (Recording(op) && Effective(a) && next.Done?) then
        w.hist.strays + multiset{op.job.jobID}
      else w.hist.strays
    ensures Marking(op) ==> !Marking(next) && (!Effective(a) ==> next.Done?)
    ensures Marking(next) ==> Recording(op) && Effective(a) && next.job == op.job
    ensures Recording(op) && Effective(a) && !next.Done? ==> Marking(next)
  {
    hide Effect, Answerable;
  }

  lemma RecordsAfter(w: World, op: Op, a: Answering, v: World, j: string)
    requires !op.Done? && After(w, op, a, v)
    requires Recording(op) && Effective(a) ==> a.newID !in w.env.store.sigs
    ensures |RecordsOf(v.env.store, j)| ==
            |RecordsOf(w.env.store, j)| + if Recording(op) && Effective(a) && op.job.jobID == j then 1 else 0
  {
    hide After;
    SigsAfter(w, op, a, v);
    var new', old' := RecordsOf(v.env.store, j), RecordsOf(w.env.store, j);
    if Recording(op) && Effective(a) && op.job.jobID == j {
      assert new' == old' + {a.newID};
    } else {
      assert new' == old';
    }
  }

  lemma CrashStep(w: World, id: nat)
    requires Enabled(w, Crash(id))
    ensures var op, v := w.ops[id], Next(w, Crash(id));
            && v == w.(ops := w.ops - {id}, hist := Stopped(w.hist, op))
            && v.hist.marks == w.hist.marks && (!Marking(op) ==> v.hist == w.hist)
  {
  }

  /** One operation goes on, or away. */
  lemma InFlightAfter(w: World, v: World, id: nat, next: Op, j: string)
    requires id in w.ops && v.ops == if next.Done? then w.ops - {id} else w.ops[id := next]
    ensures |InFlight(v, j)| ==
            |InFlight(w, j)| - (if Owes(w.ops[id], j) then 1 else 0) + (if Owes(next, j) then 1 else 0)
  {
    hide Owes;
    var rest := InFlight(w, j) - {id};
    assert InFlight(w, j) == if Owes(w.ops[id], j) then rest + {id} else rest;
    assert !next.Done? ==> InFlight(v, j) == if Owes(next, j) then rest + {id} else rest;
    assert next.Done? ==> InFlight(v, j) == rest;
    DoneOwesNothing(next, j);
  }

  lemma DoneOwesNothing(op: Op, j: string)
    ensures op.Done? ==> !Owes(op, j)
  {
  }

  /** What a served call does to the records and to what accounts for them. */
  lemma ServeCounts(w: World, id: nat, a: Answering, j: string)
    requires Enabled(w, Serve(id, a))
    ensures var v := Next(w, Serve(id, a));
            var made := if Inserts(w, Serve(id, a), j) then 1 else 0;
            && |RecordsOf(v.env.store, j)| == |RecordsOf(w.env.store, j)| + made
            && Accounted(v, j) == Accounted(w, j) + made
  {
    var op, v := w.ops[id], Next(w, Serve(id, a));
    var next := Resume(w.wired, op, ReplyTo(w.env, Request(op), a));
    ServeParts(w, id, a);
    hide Next, Enabled, Resume, Request, ReplyTo, RecordsOf, InFlight, Effective;
    TallyAfter(w, op, a, v, next);
    InFlightAfter(w, v, id, next, j);
    if Recording(op) && Effective(a) {
      AfterIsAnswerable(w, op, a, v);
      AnswerableStores(w.env, op, a);
      FreshIsNew(w.env.store, a.newID);
    }
    hide After;
    RecordsAfter(w, op, a, v, j);
  }

  /** The step records j's signature. */
  predicate Inserts(w: World, l: Label, j: string) {
    l.Serve? && l.id in w.ops && Effective(l.a) && Recording(w.ops[l.id]) && w.ops[l.id].job.jobID == j
  }

  lemma StartCounts(w: World, id: nat, op: Op, j: string)
    requires Enabled(w, Start(id, op))
    ensures Accounted(Next(w, Start(id, op)), j) == Accounted(w, j)
  {
    assert !Marking(op);
    hide Startable, Marking;
    assert InFlight(Next(w, Start(id, op)), j) == InFlight(w, j);
  }

  lemma CrashCounts(w: World, id: nat, j: string)
    requires Enabled(w, Crash(id))
    ensures Accounted(Next(w, Crash(id)), j) == Accounted(w, j)
  {
    var v := Next(w, Crash(id));
    InFlightAfter(w, v, id, Done(Outcome.Abandoned), j);
    hide InFlight;
  }

  /** Every step that records adds one to either side, and no other step changes anything. */
  lemma StepCounts(w: World, l: Label, j: string)
    requires Enabled(w, l)
    ensures var made := if Inserts(w, l, j) then 1 else 0;
            && |RecordsOf(Next(w, l).env.store, j)| == |RecordsOf(w.env.store, j)| + made
            && Accounted(Next(w, l), j) == Accounted(w, j) + made
  {
    match l
    case Serve(id, a) => ServeCounts(w, id, a, j);
    case Start(id, op) =>
      StartCounts(w, id, op, j);
      hide Accounted, RecordsOf, Startable;
    case Crash(id) =>
      CrashCounts(w, id, j);
      hide Accounted, RecordsOf;
    case _ =>
      assert InFlight(Next(w, l), j) == InFlight(w, j);
  }

  lemma {:induction false} RunCounts(w: World, ls: seq<Label>, j: string)
    requires Legal(w, ls) && CountOK(w, j)
    ensures CountOK(Play(w, ls), j) && |RecordsOf(w.env.store, j)| <= |RecordsOf(Play(w, ls).env.store, j)|
    decreases |ls|
  {
    hide Enabled, Next, RecordsOf, Accounted, Inserts;
    if |ls| > 0 {
      StepCounts(w, ls[0], j);
      RunCounts(Next(w, ls[0]), ls[1..], j);
    }
  }

  // ---- every run ----

  /** In every run, a job has exactly as many records as marks, stopped passes and passes in flight account for. */
  lemma EveryRecordIsCounted(w: World, j: string)
    requires Reached(w)
    ensures |RecordsOf(w.env.store, j)| == w.hist.marks[j] + w.hist.strays[j] + |InFlight(w, j)|
  {
    hide Legal, Play;
    var wired, echoes, now, ls :|
      Legal(Initial(wired, echoes, now), ls) && w == Play(Initial(wired, echoes, now), ls);
    var start := Initial(wired, echoes, now);
    assert RecordsOf(start.env.store, j) == {} && InFlight(start, j) == {};
    RunCounts(start, ls, j);
  }

  /** The step records a signing that is accounted for already. */
  predicate RecordsAgain(w: World, l: Label, j: string) {
    Inserts(w, l, j) && Accounted(w, j) > 0
  }

  ghost predicate NoneRecordsAgain(w: World, ls: seq<Label>, j: string)
    requires Legal(w, ls)
    decreases |ls|
  {
    |ls| > 0 ==> !RecordsAgain(w, ls[0], j) && NoneRecordsAgain(Next(w, ls[0]), ls[1..], j)
  }

  /** However a run goes on, a signing is still recorded at most once exactly when no pass records it while it is
      marked, was left behind by a stopped pass, or is between recording and marking in another. */
  lemma RecordedAtMostOnceExactly(w: World, ls: seq<Label>, j: string)
    requires Reached(w) && Legal(w, ls) && |RecordsOf(w.env.store, j)| <= 1
    ensures |RecordsOf(Play(w, ls).env.store, j)| <= 1 <==> NoneRecordsAgain(w, ls, j)
  {
    EveryRecordIsCounted(w, j);
    hide Reached, Legal, Play, RecordsOf, InFlight;
    OnceInRun(w, ls, j);
  }

  lemma {:induction false} OnceInRun(w: World, ls: seq<Label>, j: string)
    requires Legal(w, ls) && CountOK(w, j) && |RecordsOf(w.env.store, j)| <= 1
    ensures |RecordsOf(Play(w, ls).env.store, j)| <= 1 <==> NoneRecordsAgain(w, ls, j)
    decreases |ls|
  {
    hide Enabled, Next, RecordsOf, Accounted, Inserts;
    if |ls| > 0 {
      var v := Next(w, ls[0]);
      StepCounts(w, ls[0], j);
      if RecordsAgain(w, ls[0], j) {
        RunCounts(v, ls[1..], j);
      } else {
        OnceInRun(v, ls[1..], j);
      }
    }
  }
}
