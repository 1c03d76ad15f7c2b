/** The per-chain signing lock as a lease, over every history of lock calls. The store keeps stale entries and
    overwrites them lazily; here that map is shown to answer exactly like a lease that vanishes when it expires,
    and exclusion is stated on the history alone: who was granted what, when. */
module LeaseTheory {
  import opened Protocol
  import opened StoreSpec

  /** A store call that was carried out, and when. */
  datatype Timed = Timed(at: int, call: StoreCall)

  predicate Ordered(log: seq<Timed>) {
    forall i, k :: 0 <= i < k < |log| ==> log[i].at <= log[k].at
  }

  predicate NotAfter(log: seq<Timed>, t: int) {
    forall i :: 0 <= i < |log| ==> log[i].at <= t
  }

  function Touch(locks: map<string, Lease>, e: Timed): map<string, Lease> {
    match e.call
    case AcquireChainLock(chain, slot, _, ttl) => Acquire(locks, chain, slot, ttl, e.at)
    case ReleaseChainLock(chain, slot) => Release(locks, chain, slot)
    case _ => locks
  }

  /** The lock map a history leaves behind. */
  function Locks(log: seq<Timed>): map<string, Lease> {
    if |log| == 0 then map[] else Touch(Locks(log[..|log| - 1]), log[|log| - 1])
  }

  predicate Acquires(e: Timed, chain: string, slot: string) {
    e.call.AcquireChainLock? && e.call.chainKey == chain && e.call.holderSlot == slot
  }

  predicate Releases(e: Timed, chain: string, slot: string) {
    e.call.ReleaseChainLock? && e.call.chainKey == chain && e.call.holderSlot == slot
  }

  function Until(e: Timed): int
    requires e.call.AcquireChainLock?
  {
    e.at + TtlOf(e.call.ttlSeconds)
  }

  /** The i-th call is an acquire that was granted. */
  predicate Grant(log: seq<Timed>, i: nat)
    requires i < |log|
  {
    log[i].call.AcquireChainLock? &&
    Acquirable(Locks(log[..i]), log[i].call.chainKey, log[i].call.holderSlot, log[i].at)
  }

  /** A grant its slot has neither released nor refreshed before call k. */
  predicate Standing(log: seq<Timed>, i: nat, k: nat)
    requires i < k <= |log|
  {
    && Grant(log, i)
    && forall m :: i < m < k ==>
         && !Acquires(log[m], log[i].call.chainKey, log[i].call.holderSlot)
         && !Releases(log[m], log[i].call.chainKey, log[i].call.holderSlot)
  }

  lemma LocksStep(log: seq<Timed>, k: nat)
    requires k < |log|
    ensures Locks(log[..k + 1]) == Touch(Locks(log[..k]), log[k])
  {
    assert log[..k + 1][..k] == log[..k];
  }

  /** Until it expires, a standing grant is what the map says. */
  lemma {:induction false} StandingHolds(log: seq<Timed>, i: nat, k: nat, t: int)
    requires Ordered(log) && i < k <= |log| && Standing(log, i, k)
    requires NotAfter(log[..k], t) && t < Until(log[i])
    ensures log[i].call.chainKey in Locks(log[..k])
    ensures Locks(log[..k])[log[i].call.chainKey] == Lease(log[i].call.holderSlot, Until(log[i]))
    decreases k
  {
    LocksStep(log, k - 1);
    if i < k - 1 {
      assert forall m :: 0 <= m < k - 1 ==> log[..k - 1][m] == log[..k][m];
      StandingHolds(log, i, k - 1, t);
      assert log[..k][k - 1].at <= t;
    }
  }

  /** Every entry comes from a standing grant. */
  lemma {:induction false} EntryHasGrant(log: seq<Timed>, k: nat, chain: string) returns (i: nat)
    requires k <= |log| && chain in Locks(log[..k])
    ensures i < k && Standing(log, i, k) && log[i].call.chainKey == chain
    ensures Locks(log[..k])[chain] == Lease(log[i].call.holderSlot, Until(log[i]))
    decreases k
  {
    LocksStep(log, k - 1);
    var e := log[k - 1];
    if e.call.AcquireChainLock? && e.call.chainKey == chain && Grant(log, k - 1) {
      i := k - 1;
    } else {
      i := EntryHasGrant(log, k - 1, chain);
    }
  }

  /** Some other slot has a grant on the chain that stands and has not expired when call k is made. */
  predicate HeldByOther(log: seq<Timed>, k: nat, chain: string, slot: string)
    requires k < |log|
  {
    exists i: nat :: i < k && Standing(log, i, k) && log[i].call.chainKey == chain
                     && log[i].call.holderSlot != slot && log[k].at < Until(log[i])
  }

  /** An acquire is granted exactly when no other slot's grant stands unexpired. */
  lemma GrantedExactlyWhenFree(log: seq<Timed>, k: nat)
    requires Ordered(log) && k < |log| && log[k].call.AcquireChainLock?
    ensures Grant(log, k) <==> !HeldByOther(log, k, log[k].call.chainKey, log[k].call.holderSlot)
  {
    var chain, slot := log[k].call.chainKey, log[k].call.holderSlot;
    if HeldByOther(log, k, chain, slot) {
      var i: nat :| i < k && Standing(log, i, k) && log[i].call.chainKey == chain
                    && log[i].call.holderSlot != slot && log[k].at < Until(log[i]);
      StandingHolds(log, i, k, log[k].at);
    } else if !Grant(log, k) {
      var i := EntryHasGrant(log, k, chain);
    }
  }

  /** Two slots never hold a chain at once: between a grant and a later grant to another slot, the first was
      released, or refreshed for the last time long enough ago to have expired. */
  lemma HoldsAreDisjoint(log: seq<Timed>, i: nat, k: nat)
    requires Ordered(log) && i < k < |log| && Grant(log, i) && Grant(log, k)
    requires log[k].call.chainKey == log[i].call.chainKey && log[k].call.holderSlot != log[i].call.holderSlot
    ensures log[k].at >= Until(log[i]) || !Standing(log, i, k)
  {
    GrantedExactlyWhenFree(log, k);
  }

  // ---- keep-alive ----

  /** From its grant at i up to call k the slot never releases, and whenever anything happens its last refresh
      is less than the lease's length old. */
  predicate KeptAlive(log: seq<Timed>, i: nat, k: nat)
    requires i < k <= |log|
  {
    && Grant(log, i)
    && (forall m :: i <= m < k && Acquires(log[m], log[i].call.chainKey, log[i].call.holderSlot) ==>
          log[m].call.ttlSeconds == log[i].call.ttlSeconds)
    && (forall m :: i < m < k ==> !Releases(log[m], log[i].call.chainKey, log[i].call.holderSlot))
    && (forall m {:trigger Fresh(log, i, m)} :: i < m < k ==> Fresh(log, i, m))
  }

  predicate Fresh(log: seq<Timed>, i: nat, m: int)
    requires i < m < |log| && log[i].call.AcquireChainLock?
  {
    exists j :: i <= j < m && Acquires(log[j], log[i].call.chainKey, log[i].call.holderSlot)
        && log[m].at < Until(log[j])
  }

  /** The entry is at least as good as the slot's latest refresh. */
  lemma {:induction false} KeptAliveHolds(log: seq<Timed>, i: nat, k: nat)
    requires Ordered(log) && i < k <= |log| && KeptAlive(log, i, k)
    ensures log[i].call.chainKey in Locks(log[..k])
    ensures Locks(log[..k])[log[i].call.chainKey].slot == log[i].call.holderSlot
    ensures forall j :: i <= j < k && Acquires(log[j], log[i].call.chainKey, log[i].call.holderSlot) ==>
              Locks(log[..k])[log[i].call.chainKey].expires >= Until(log[j])
    decreases k
  {
    LocksStep(log, k - 1);
    if i < k - 1 {
      KeptAliveSoFar(log, i, k);
      KeptAliveHolds(log, i, k - 1);
      assert Fresh(log, i, k - 1);
      assert !Releases(log[k - 1], log[i].call.chainKey, log[i].call.holderSlot);
      assert Acquires(log[k - 1], log[i].call.chainKey, log[i].call.holderSlot) ==>
          log[k - 1].call.ttlSeconds == log[i].call.ttlSeconds;
      hide KeptAlive, Grant;
    }
  }

  lemma KeptAliveSoFar(log: seq<Timed>, i: nat, k: nat)
    requires i < k - 1 < |log| && KeptAlive(log, i, k)
    ensures KeptAlive(log, i, k - 1)
  {
  }

  /** A slot that keeps its lease alive keeps it: every refresh succeeds and nobody else gets in. */
  lemma KeepAliveExcludes(log: seq<Timed>, i: nat, m: nat)
    requires Ordered(log) && i < m < |log| && KeptAlive(log, i, m + 1)
    requires log[m].call.AcquireChainLock? && log[m].call.chainKey == log[i].call.chainKey
    ensures Grant(log, m) <==> log[m].call.holderSlot == log[i].call.holderSlot
  {
    assert Fresh(log, i, m);
    KeptAliveHolds(log, i, m);
  }

  // ---- abandonment ----

  /** A chain is free at a time from the last call on exactly when every standing grant on it has expired. Attempts that
      were refused play no part. */
  lemma FreeExactly(log: seq<Timed>, chain: string, t: int)
    requires Ordered(log) && NotAfter(log, t)
    ensures LockStatus(Locks(log), chain, t) == (false, "") <==>
      forall i: nat :: i < |log| && Standing(log, i, |log|) && log[i].call.chainKey == chain ==> Until(log[i]) <= t
  {
    assert log[..|log|] == log;
    if LockStatus(Locks(log), chain, t) == (false, "") {
      forall i: nat | i < |log| && Standing(log, i, |log|) && log[i].call.chainKey == chain ensures Until(log[i]) <= t {
        if t < Until(log[i]) {
          StandingHolds(log, i, |log|, t);
        }
      }
    } else {
      var i := EntryHasGrant(log, |log|, chain);
    }
  }

  /** A chain whose last grants are all a lease's length old is free to everybody, however often others were refused. */
  lemma AbandonedIsFree(log: seq<Timed>, chain: string, slot: string, t: int)
    requires forall i: nat :: i < |log| && Grant(log, i) && log[i].call.chainKey == chain ==> Until(log[i]) <= t
    ensures LockStatus(Locks(log), chain, t) == (false, "")
    ensures Acquirable(Locks(log), chain, slot, t)
  {
    assert log[..|log|] == log;
    if chain in Locks(log) {
      var i := EntryHasGrant(log, |log|, chain);
    }
  }

  /** The status names a slot exactly when every other slot, and only those, would be refused. */
  lemma StatusNamesTheHolder(locks: map<string, Lease>, chain: string, slot: string, t: int)
    ensures LockStatus(locks, chain, t) == (true, slot) <==>
              forall other :: Acquirable(locks, chain, other, t) <==> other == slot
    ensures LockStatus(locks, chain, t) == (false, "") <==> forall other :: Acquirable(locks, chain, other, t)
  {
    assert slot + "x" != slot by {
      assert |slot + "x"| != |slot|;
    }
    if chain in locks && Live(locks[chain], t) {
      assert Acquirable(locks, chain, locks[chain].slot, t);
      assert !Acquirable(locks, chain, locks[chain].slot + "x", t) by {
        assert |locks[chain].slot + "x"| != |locks[chain].slot|;
      }
    } else {
      assert Acquirable(locks, chain, slot + "x", t);
    }
  }

  // ---- the ideal lease ----

  function Purge(locks: map<string, Lease>, t: int): map<string, Lease> {
    map chain | chain in locks && Live(locks[chain], t) :: locks[chain]
  }

  function IdealTouch(live: map<string, Lease>, e: Timed): map<string, Lease> {
    match e.call
    case AcquireChainLock(chain, slot, _, ttl) =>
      if chain !in live || live[chain].slot == slot then live[chain := Lease(slot, Until(e))] else live
    case ReleaseChainLock(chain, slot) =>
      if chain in live && live[chain].slot == slot then live - {chain} else live
    case _ => live
  }

  /** A lease that is gone the moment it expires: no entry outlives its time. */
  function IdealLocks(log: seq<Timed>): map<string, Lease> {
    if |log| == 0 then map[]
    else IdealTouch(Purge(IdealLocks(log[..|log| - 1]), log[|log| - 1].at), log[|log| - 1])
  }

  /** At any time from the last call on, the map with stale entries shows exactly what the ideal lease shows. */
  lemma {:induction false} StaleEntriesAreInvisible(log: seq<Timed>, t: int)
    requires Ordered(log) && NotAfter(log, t)
    ensures Purge(Locks(log), t) == Purge(IdealLocks(log), t)
  {
    if |log| > 0 {
      var n := |log| - 1;
      assert log[..n + 1] == log && log[n].at <= t;
      StaleEntriesAreInvisible(log[..n], log[n].at);
      TouchCommutes(Locks(log[..n]), IdealLocks(log[..n]), log[n], t);
    }
  }

  lemma TouchCommutes(locks: map<string, Lease>, ideal: map<string, Lease>, e: Timed, t: int)
    requires e.at <= t && Purge(locks, e.at) == Purge(ideal, e.at)
    ensures Purge(Touch(locks, e), t) == Purge(IdealTouch(Purge(ideal, e.at), e), t)
  {
    var live := Purge(ideal, e.at);
    forall chain
      ensures chain in Purge(Touch(locks, e), t) <==> chain in Purge(IdealTouch(live, e), t)
      ensures chain in Purge(Touch(locks, e), t) ==>
                Purge(Touch(locks, e), t)[chain] == Purge(IdealTouch(live, e), t)[chain]
    {
      assert chain in Purge(locks, e.at) <==> chain in live;
      assert chain in live ==> Purge(locks, e.at)[chain] == live[chain];
    }
  }

  /** So every acquire and every status query is answered as the ideal lease would answer it. */
  lemma AnswersLikeTheIdeal(log: seq<Timed>, chain: string, slot: string, t: int)
    requires Ordered(log) && NotAfter(log, t)
    ensures var live := Purge(IdealLocks(log), t);
            && (Acquirable(Locks(log), chain, slot, t) <==> chain !in live || live[chain].slot == slot)
            && LockStatus(Locks(log), chain, t) == if chain in live then (true, live[chain].slot) else (false, "")
  {
    StaleEntriesAreInvisible(log, t);
    assert chain in Purge(Locks(log), t) <==> chain in Locks(log) && Live(Locks(log)[chain], t);
  }

  /** A release removes at most its own slot's hold. */
  lemma ReleaseSparesOthers(locks: map<string, Lease>, chain: string, slot: string)
    ensures forall c :: c in locks && (c != chain || locks[c].slot != slot) ==>
              c in Release(locks, chain, slot) && Release(locks, chain, slot)[c] == locks[c]
    ensures chain in Release(locks, chain, slot) ==> Release(locks, chain, slot)[chain].slot != slot
  {
  }
}
