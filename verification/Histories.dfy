/** What the store answers about jobs, records and reports is determined by the calls made of it: every row is what the
    call that created it said, as amended by the latest calls about it, and nothing else. Of every history of calls. */
module Histories {
  import opened Protocol
  import opened StoreSpec

  /** A store call that was carried out, when, and the id it was given to assign. */
  datatype Event = Event(at: int, id: string, call: StoreCall)

  function After(log: seq<Event>): StoreState {
    if |log| == 0 then EMPTY
    else
      var e := log[|log| - 1];
      Apply(After(log[..|log| - 1]), e.at, e.id, e.call).0
  }

  /** The reply to a call made after this history. */
  function Answer(log: seq<Event>, e: Event): Reply {
    Apply(After(log), e.at, e.id, e.call).1
  }

  // ---- jobs ----

  predicate Saves(e: Event, jobID: string) {
    e.call.SaveJob? && e.call.save.jobID == jobID
  }

  predicate Notes(e: Event, jobID: string) {
    e.call.ReconcileJob? && e.call.jobID == jobID
  }

  predicate Saved(log: seq<Event>, jobID: string) {
    exists i :: 0 <= i < |log| && Saves(log[i], jobID)
  }

  /** The i-th call is the first that saves the job. */
  predicate FirstSave(log: seq<Event>, i: nat, jobID: string) {
    i < |log| && Saves(log[i], jobID) && forall k :: 0 <= k < i ==> !Saves(log[k], jobID)
  }

  /** The i-th call is the job's save or a later note of its state, and no note came after it. */
  predicate Latest(log: seq<Event>, i: nat, jobID: string) {
    && i < |log| && (FirstSave(log, i, jobID) || (Notes(log[i], jobID) && Saved(log[..i], jobID)))
    && forall k :: i < k < |log| ==> !Notes(log[k], jobID)
  }

  predicate SavedAs(job: Job, at: int, save: SaveJobInput) {
    && job.jobID == save.jobID && job.envelopeID == save.envelopeID && job.slotID == save.slotID
    && job.flow == save.flow && job.sigFormat == save.sigFormat && job.callerSub == save.callerSub
    && job.loginMethod == save.loginMethod && job.loA == save.loA && job.createdAt == at
  }

  predicate InState(job: Job, e: Event) {
    && job.updatedAt == e.at
    && (e.call.ReconcileJob? ==> job.state == e.call.state)
    && (e.call.SaveJob? ==> job.state == if e.call.save.state == UNSET then PREPARING else e.call.save.state)
  }

  lemma AfterStep(log: seq<Event>)
    requires |log| > 0
    ensures var e := log[|log| - 1]; After(log) == Apply(After(log[..|log| - 1]), e.at, e.id, e.call).0
  {
  }

  /** What one call does to one job. */
  lemma CallOnJob(s: StoreState, e: Event, jobID: string)
    ensures var t := Apply(s, e.at, e.id, e.call).0;
            && (jobID in t.jobs <==> jobID in s.jobs || Saves(e, jobID))
            && (jobID !in s.jobs && Saves(e, jobID) ==>
                  SavedAs(t.jobs[jobID], e.at, e.call.save) && InState(t.jobs[jobID], e))
            && (jobID in s.jobs && Notes(e, jobID) ==>
                  && InState(t.jobs[jobID], e)
                  && t.jobs[jobID] == s.jobs[jobID].(state := t.jobs[jobID].state,
                                                     updatedAt := t.jobs[jobID].updatedAt))
            && (jobID in s.jobs && !Notes(e, jobID) ==> t.jobs[jobID] == s.jobs[jobID])
  {
  }

  lemma {:induction false} JobIsThere(log: seq<Event>, jobID: string)
    ensures jobID in After(log).jobs <==> Saved(log, jobID)
  {
    if |log| > 0 {
      var before, n := log[..|log| - 1], |log| - 1;
      JobIsThere(before, jobID);
      CallOnJob(After(before), log[n], jobID);
      AfterStep(log);
      hide After, Apply, Saves;
      assert forall i :: 0 <= i < n ==> log[i] == before[i];
      assert Saved(log, jobID) <==> Saved(before, jobID) || Saves(log[n], jobID);
    }
  }

  lemma FirstSaved(log: seq<Event>, i: nat, jobID: string)
    requires FirstSave(log, i, jobID)
    ensures Saved(log, jobID) && !Saved(log[..i], jobID)
  {
    assert Saves(log[i], jobID);
  }

  lemma {:induction false} JobIsAsSaved(log: seq<Event>, i: nat, jobID: string)
    requires FirstSave(log, i, jobID)
    ensures jobID in After(log).jobs && SavedAs(After(log).jobs[jobID], log[i].at, log[i].call.save)
  {
    var before, n := log[..|log| - 1], |log| - 1;
    FirstSaved(log, i, jobID);
    JobIsThere(log, jobID);
    JobIsThere(before, jobID);
    CallOnJob(After(before), log[n], jobID);
    AfterStep(log);
    hide After, Apply, Saves;
    if i < n {
      assert forall k :: 0 <= k < n ==> log[k] == before[k];
      JobIsAsSaved(before, i, jobID);
    }
  }

  lemma {:induction false} JobIsAsNoted(log: seq<Event>, i: nat, jobID: string)
    requires Latest(log, i, jobID)
    ensures jobID in After(log).jobs && InState(After(log).jobs[jobID], log[i])
  {
    var before, n := log[..|log| - 1], |log| - 1;
    JobIsThere(before, jobID);
    CallOnJob(After(before), log[n], jobID);
    AfterStep(log);
    if FirstSave(log, i, jobID) {
      FirstSaved(log, i, jobID);
    }
    hide After, Apply, Saves, Notes, InState;
    assert forall k :: 0 <= k < n ==> log[k] == before[k];
    if i < n {
      assert log[..i] == before[..i];
      assert FirstSave(log, i, jobID) ==> FirstSave(before, i, jobID);
      JobIsAsNoted(before, i, jobID);
    } else {
      assert log[..i] == before;
    }
  }

  /** Who a job belongs to and what it is about is what its first save said; its state is that of the latest note, or
      what it was saved with, PREPARING if that was nothing. */
  lemma JobIsItsHistory(log: seq<Event>, jobID: string, now: int)
    ensures var r := Answer(log, Event(now, "", GetJob(jobID)));
            && (!Saved(log, jobID) ==> r == Fail(NotFound))
            && (forall i: nat :: FirstSave(log, i, jobID) ==> r.JobRow? && SavedAs(r.job, log[i].at, log[i].call.save))
            && (forall i: nat :: Latest(log, i, jobID) ==> r.JobRow? && InState(r.job, log[i]))
  {
    JobIsThere(log, jobID);
    hide After, SavedAs, InState;
    forall i: nat | FirstSave(log, i, jobID)
      ensures jobID in After(log).jobs && SavedAs(After(log).jobs[jobID], log[i].at, log[i].call.save)
    {
      JobIsAsSaved(log, i, jobID);
    }
    forall i: nat | Latest(log, i, jobID) ensures jobID in After(log).jobs && InState(After(log).jobs[jobID], log[i]) {
      JobIsAsNoted(log, i, jobID);
    }
  }

  /** A job id is taken exactly once, and a state can be noted exactly of a job that was saved. */
  lemma SavedOnce(log: seq<Event>, e: Event)
    ensures e.call.SaveJob? ==> Answer(log, e) == if Saved(log, e.call.save.jobID) then Fail(Duplicate) else Ack
    ensures e.call.ReconcileJob? ==> Answer(log, e) == if Saved(log, e.call.jobID) then Ack else Fail(NotFound)
  {
    if e.call.SaveJob? {
      JobIsThere(log, e.call.save.jobID);
    } else if e.call.ReconcileJob? {
      JobIsThere(log, e.call.jobID);
    }
    hide After;
  }

  // ---- signature records ----

  predicate Inserts(e: Event, id: string) {
    e.call.InsertSignature? && e.id == id
  }

  predicate Links(e: Event, id: string) {
    e.call.RecordValidation? && e.call.signatureID == id
  }

  predicate Grades(e: Event, id: string) {
    Links(e, id) && e.call.level != ""
  }

  predicate Inserted(log: seq<Event>, id: string) {
    exists i :: 0 <= i < |log| && Inserts(log[i], id)
  }

  /** The i-th call inserts the record, and none after it does. */
  predicate LastInsert(log: seq<Event>, i: nat, id: string) {
    i < |log| && Inserts(log[i], id) && forall k :: i < k < |log| ==> !Inserts(log[k], id)
  }

  /** The i-th call is the record's insert or a later link, and no later call is. */
  predicate LatestLink(log: seq<Event>, i: nat, id: string) {
    && i < |log| && (Inserts(log[i], id) || (Links(log[i], id) && Inserted(log[..i], id)))
    && forall k :: i < k < |log| ==> !Inserts(log[k], id) && !Links(log[k], id)
  }

  /** The same of links that give a level. */
  predicate LatestGrade(log: seq<Event>, i: nat, id: string) {
    && i < |log| && (Inserts(log[i], id) || (Grades(log[i], id) && Inserted(log[..i], id)))
    && forall k :: i < k < |log| ==> !Inserts(log[k], id) && !Grades(log[k], id)
  }

  predicate RecordedAs(sig: Signature, id: string, input: SignatureInput) {
    && sig.id == id && sig.jobID == input.jobID && sig.envelopeID == input.envelopeID && sig.slotID == input.slotID
    && sig.flowUsed == input.flowUsed && sig.sigFormat == input.sigFormat
    && sig.signedDocumentRef == input.signedDocumentRef && sig.timestampRef == input.timestampRef
    && sig.loginMethod == input.loginMethod && sig.loA == input.loA
    && sig.preservationClass == if input.preservationClass == Unspecified then NoPreservation
                                else input.preservationClass
  }

  predicate LinkedBy(sig: Signature, e: Event) {
    && (e.call.InsertSignature? ==>
          sig.validationID == e.call.input.validationID && sig.validated == e.call.input.validated)
    && (e.call.RecordValidation? ==> sig.validationID == e.call.validationID && sig.validated == e.call.validated)
  }

  predicate GradedBy(sig: Signature, e: Event) {
    && (e.call.InsertSignature? ==> sig.level == e.call.input.level)
    && (e.call.RecordValidation? ==> sig.level == e.call.level)
  }

  /** What one call does to one record. */
  lemma CallOnRecord(s: StoreState, e: Event, id: string)
    ensures var t := Apply(s, e.at, e.id, e.call).0;
            && (id in t.sigs <==> id in s.sigs || Inserts(e, id))
            && (Inserts(e, id) ==>
                  && RecordedAs(t.sigs[id], id, e.call.input)
                  && LinkedBy(t.sigs[id], e) && GradedBy(t.sigs[id], e))
            && (id in s.sigs && Links(e, id) ==>
                  && LinkedBy(t.sigs[id], e) && (Grades(e, id) ==> GradedBy(t.sigs[id], e))
                  && (!Grades(e, id) ==> t.sigs[id].level == s.sigs[id].level)
                  && t.sigs[id] == s.sigs[id].(validationID := t.sigs[id].validationID,
                                               validated := t.sigs[id].validated, level := t.sigs[id].level))
            && (id in s.sigs && !Inserts(e, id) && !Links(e, id) ==> t.sigs[id] == s.sigs[id])
  {
  }

  lemma {:induction false} RecordIsThere(log: seq<Event>, id: string)
    ensures id in After(log).sigs <==> Inserted(log, id)
  {
    if |log| > 0 {
      var before, n := log[..|log| - 1], |log| - 1;
      RecordIsThere(before, id);
      CallOnRecord(After(before), log[n], id);
      AfterStep(log);
      hide After, Apply, Inserts;
      assert forall i :: 0 <= i < n ==> log[i] == before[i];
      assert Inserted(log, id) <==> Inserted(before, id) || Inserts(log[n], id);
    }
  }

  lemma {:induction false} RecordIsAsInserted(log: seq<Event>, i: nat, id: string)
    requires LastInsert(log, i, id)
    ensures id in After(log).sigs && RecordedAs(After(log).sigs[id], id, log[i].call.input)
  {
    var before, n := log[..|log| - 1], |log| - 1;
    CallOnRecord(After(before), log[n], id);
    AfterStep(log);
    hide After, Apply, LinkedBy, GradedBy;
    if i < n {
      assert forall k :: 0 <= k < n ==> log[k] == before[k];
      RecordIsAsInserted(before, i, id);
    }
  }

  lemma {:induction false} RecordIsAsLinked(log: seq<Event>, i: nat, id: string)
    requires LatestLink(log, i, id)
    ensures id in After(log).sigs && LinkedBy(After(log).sigs[id], log[i])
  {
    var before, n := log[..|log| - 1], |log| - 1;
    RecordIsThere(before, id);
    CallOnRecord(After(before), log[n], id);
    AfterStep(log);
    hide After, Apply, Inserts, Links, LinkedBy, GradedBy, RecordedAs;
    assert forall k :: 0 <= k < n ==> log[k] == before[k];
    if i < n {
      assert log[..i] == before[..i];
      RecordIsAsLinked(before, i, id);
    } else {
      assert log[..i] == before;
    }
  }

  lemma {:induction false} RecordIsAsGraded(log: seq<Event>, i: nat, id: string)
    requires LatestGrade(log, i, id)
    ensures id in After(log).sigs && GradedBy(After(log).sigs[id], log[i])
  {
    var before, n := log[..|log| - 1], |log| - 1;
    RecordIsThere(before, id);
    CallOnRecord(After(before), log[n], id);
    AfterStep(log);
    hide After, Apply, Inserts, LinkedBy, RecordedAs;
    assert forall k :: 0 <= k < n ==> log[k] == before[k];
    if i < n {
      assert log[..i] == before[..i];
      RecordIsAsGraded(before, i, id);
    } else {
      assert log[..i] == before;
    }
  }

  /** What a record is about is what its insert said; its link and pass flag are those of the latest validation linked
      to it, and its level that of the latest one that gave a level. */
  lemma RecordIsItsHistory(log: seq<Event>, id: string, now: int)
    ensures var r := Answer(log, Event(now, "", GetSignature(id)));
            && (!Inserted(log, id) ==> r == Fail(NotFound))
            && (forall i: nat :: LastInsert(log, i, id) ==> r.SignatureRow? && RecordedAs(r.sig, id, log[i].call.input))
            && (forall i: nat :: LatestLink(log, i, id) ==> r.SignatureRow? && LinkedBy(r.sig, log[i]))
            && (forall i: nat :: LatestGrade(log, i, id) ==> r.SignatureRow? && GradedBy(r.sig, log[i]))
  {
    RecordIsThere(log, id);
    hide After, RecordedAs, LinkedBy, GradedBy;
    forall i: nat | LastInsert(log, i, id)
      ensures id in After(log).sigs && RecordedAs(After(log).sigs[id], id, log[i].call.input)
    {
      RecordIsAsInserted(log, i, id);
    }
    forall i: nat | LatestLink(log, i, id) ensures id in After(log).sigs && LinkedBy(After(log).sigs[id], log[i]) {
      RecordIsAsLinked(log, i, id);
    }
    forall i: nat | LatestGrade(log, i, id) ensures id in After(log).sigs && GradedBy(After(log).sigs[id], log[i]) {
      RecordIsAsGraded(log, i, id);
    }
  }

  /** A validation can be linked exactly to a record that was inserted. */
  lemma LinkedOnlyIfInserted(log: seq<Event>, e: Event)
    ensures e.call.RecordValidation? ==>
              Answer(log, e) == if Inserted(log, e.call.signatureID) then Ack else Fail(NotFound)
  {
    if e.call.RecordValidation? {
      RecordIsThere(log, e.call.signatureID);
    }
    hide After;
  }
}
