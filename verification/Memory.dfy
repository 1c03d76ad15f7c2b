/** The in-memory store (store/memory.go). Job and signature rows live on the heap and are updated
    through their references; readers get copies. Every method is proved to do to the abstract view
    exactly what StoreSpec says. The mutex makes each method one atomic step; the clock reading and
    the fresh identifier are parameters. */
module MemoryStore {
  import opened Protocol
  import opened StoreSpec

  /** The calls that read no clock and assign no id do not depend on them. */
  lemma ApplyLooksAway(s: StoreState, now: int, id: string, call: StoreCall)
    ensures !call.InsertSignature? && !call.StoreReport? ==> Apply(s, now, id, call) == Apply(s, now, "", call)
    ensures call.InsertSignature? || call.StoreReport? ==> Apply(s, now, id, call) == Apply(s, 0, id, call)
    ensures call.GetJob? || call.GetSignature? || call.RecordValidation? || call.ReleaseChainLock? ==>
              Apply(s, now, id, call) == Apply(s, 0, "", call)
  {
  }

  class JobCell {
    var job: Job
    constructor (job: Job)
      ensures this.job == job
    {
      this.job := job;
    }
  }

  class SignatureCell {
    var sig: Signature
    constructor (sig: Signature)
      ensures this.sig == sig
    {
      this.sig := sig;
    }
  }

  class Memory {
    var jobs: map<string, JobCell>
    var sigs: map<string, SignatureCell>
    var reports: map<string, ReportInput>
    var locks: map<string, Lease>

    /** No row is reachable under two keys, so an update through a reference changes one row. */
    ghost predicate Valid()
      reads this
    {
      && (forall j, k :: j in jobs && k in jobs && jobs[j] == jobs[k] ==> j == k)
      && (forall j, k :: j in sigs && k in sigs && sigs[j] == sigs[k] ==> j == k)
    }

    ghost function Repr(): set<object>
      reads this
    {
      {this} + (set k | k in jobs :: jobs[k] as object) + (set k | k in sigs :: sigs[k] as object)
    }

    ghost function View(): StoreState
      reads Repr()
    {
      StoreState(map k | k in jobs :: jobs[k].job, map k | k in sigs :: sigs[k].sig, reports, locks)
    }

    constructor ()
      ensures Valid() && fresh(Repr()) && View() == EMPTY
    {
      jobs, sigs, reports, locks := map[], map[], map[], map[];
    }

    method SaveJob(now: int, input: SaveJobInput) returns (r: Reply)
      requires Valid()
      modifies this`jobs
      ensures Valid() && fresh(Repr() - old(Repr()))
      ensures (View(), r) == Apply(old(View()), now, "", StoreCall.SaveJob(input))
    {
      if input.jobID in jobs {
        return Fail(Duplicate);
      }
      var state := input.state;
      if state == UNSET {
        state := PREPARING;
      }
      var row := new JobCell(Job(input.jobID, input.envelopeID, input.slotID, input.flow, input.sigFormat, state,
                                 input.callerSub, input.loginMethod, input.loA, now, now));
      jobs := jobs[input.jobID := row];
      assert View().jobs == old(View()).jobs[input.jobID := JobOf(input, now)];
      assert View().sigs == old(View()).sigs;
      return Ack;
    }

    method ReconcileJob(now: int, jobID: string, state: State) returns (r: Reply)
      requires Valid()
      modifies if jobID in jobs then {jobs[jobID]} else {}
      ensures Valid() && Repr() == old(Repr())
      ensures (View(), r) == Apply(old(View()), now, "", StoreCall.ReconcileJob(jobID, state))
    {
      if jobID !in jobs {
        return Fail(NotFound);
      }
      var row := jobs[jobID];
      row.job := row.job.(state := state, updatedAt := now);
      assert View().jobs == old(View()).jobs[jobID := old(View()).jobs[jobID].(state := state, updatedAt := now)];
      assert View().sigs == old(View()).sigs;
      return Ack;
    }

    method GetJob(jobID: string) returns (r: Reply)
      ensures (View(), r) == Apply(View(), 0, "", StoreCall.GetJob(jobID))
    {
      return if jobID in jobs then JobRow(jobs[jobID].job) else Fail(NotFound);
    }

    method InsertSignature(id: string, input: SignatureInput) returns (r: Reply)
      requires Valid()
      modifies this`sigs
      ensures Valid() && fresh(Repr() - old(Repr()))
      ensures (View(), r) == Apply(old(View()), 0, id, StoreCall.InsertSignature(input))
    {
      var presv := input.preservationClass;
      if presv == Unspecified {
        presv := NoPreservation;
      }
      var row := new SignatureCell(Signature(
        id, input.jobID, input.envelopeID, input.slotID, input.flowUsed, input.sigFormat, input.level,
        input.signedDocumentRef, input.timestampRef, input.validated, input.validationID, presv,
        input.loginMethod, input.loA));
      sigs := sigs[id := row];
      assert View().sigs == old(View()).sigs[id := SignatureOf(id, input)];
      assert View().jobs == old(View()).jobs;
      return NewId(id);
    }

    method GetSignature(id: string) returns (r: Reply)
      ensures (View(), r) == Apply(View(), 0, "", StoreCall.GetSignature(id))
    {
      return if id in sigs then SignatureRow(sigs[id].sig) else Fail(NotFound);
    }

    method RecordValidation(signatureID: string, validationID: string, validated: bool, level: string)
      returns (r: Reply)
      requires Valid()
      modifies if signatureID in sigs then {sigs[signatureID]} else {}
      ensures Valid() && Repr() == old(Repr())
      ensures (View(), r) ==
              Apply(old(View()), 0, "", StoreCall.RecordValidation(signatureID, validationID, validated, level))
    {
      if signatureID !in sigs {
        return Fail(NotFound);
      }
      var row := sigs[signatureID];
      var sig := row.sig.(validationID := validationID, validated := validated);
      if level != "" {
        sig := sig.(level := level);
      }
      row.sig := sig;
      assert View().sigs == old(View()).sigs[signatureID :=
        Link(old(View().sigs[signatureID]), validationID, validated, level)];
      assert View().jobs == old(View()).jobs;
      return Ack;
    }

    method StoreReport(id: string, input: ReportInput) returns (r: Reply)
      modifies this`reports
      ensures Repr() == old(Repr()) && (old(Valid()) ==> Valid())
      ensures (View(), r) == Apply(old(View()), 0, id, StoreCall.StoreReport(input))
    {
      reports := reports[id := input];
      assert View().jobs == old(View()).jobs && View().sigs == old(View()).sigs;
      return NewId(id);
    }

    method AcquireChainLock(now: int, chainKey: string, holderSlot: string, holderRef: string, ttlSeconds: int)
      returns (r: Reply)
      modifies this`locks
      ensures Repr() == old(Repr()) && (old(Valid()) ==> Valid())
      ensures (View(), r) ==
              Apply(old(View()), now, "", StoreCall.AcquireChainLock(chainKey, holderSlot, holderRef, ttlSeconds))
    {
      var ttl := ttlSeconds;
      if ttl <= 0 {
        ttl := 300;
      }
      assert View().jobs == old(View()).jobs && View().sigs == old(View()).sigs;
      if chainKey in locks && locks[chainKey].expires > now && locks[chainKey].slot != holderSlot {
        return Granted(false);
      }
      locks := locks[chainKey := Lease(holderSlot, now + ttl * SECOND)];
      assert View().jobs == old(View()).jobs && View().sigs == old(View()).sigs;
      return Granted(true);
    }

    method ReleaseChainLock(chainKey: string, holderSlot: string) returns (r: Reply)
      modifies this`locks
      ensures Repr() == old(Repr()) && (old(Valid()) ==> Valid())
      ensures (View(), r) == Apply(old(View()), 0, "", StoreCall.ReleaseChainLock(chainKey, holderSlot))
    {
      if chainKey in locks && locks[chainKey].slot == holderSlot {
        locks := locks - {chainKey};
      }
      assert View().jobs == old(View()).jobs && View().sigs == old(View()).sigs;
      return Ack;
    }

    method ChainLockStatus(now: int, chainKey: string) returns (r: Reply)
      ensures (View(), r) == Apply(View(), now, "", StoreCall.ChainLockStatus(chainKey))
    {
      if chainKey in locks && locks[chainKey].expires > now {
        return LockState(true, locks[chainKey].slot);
      }
      return LockState(false, "");
    }

    /** Any store call, by its name. */
    method Serve(now: int, id: string, call: StoreCall) returns (r: Reply)
      requires Valid()
      modifies Repr()
      ensures Valid() && fresh(Repr() - old(Repr()))
      ensures (View(), r) == Apply(old(View()), now, id, call)
    {
      ApplyLooksAway(View(), now, id, call);
      hide Apply;
      match call
      case SaveJob(input) => r := SaveJob(now, input);
      case ReconcileJob(jobID, state) => r := ReconcileJob(now, jobID, state);
      case GetJob(jobID) => r := GetJob(jobID);
      case InsertSignature(input) => r := InsertSignature(id, input);
      case GetSignature(signatureID) => r := GetSignature(signatureID);
      case RecordValidation(s, v, ok, level) => r := RecordValidation(s, v, ok, level);
      case StoreReport(report) => r := StoreReport(id, report);
      case AcquireChainLock(chain, slot, who, ttl) => r := AcquireChainLock(now, chain, slot, who, ttl);
      case ReleaseChainLock(chain, slot) => r := ReleaseChainLock(chain, slot);
      case ChainLockStatus(chain) => r := ChainLockStatus(now, chain);
    }
  }
}
