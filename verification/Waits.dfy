/** How long a blocked signer waits for a chain: the polling loop as a function of everything around it. */
module Waits {
  import opened Protocol
  import opened StoreSpec
  import opened Choreography
  import opened Solo
  import opened CallByCall

  // ---- durations ----

  const TWO_TO_THE_63 := 0x8000_0000_0000_0000
  const MAX_EXACT_SECONDS := 9_223_372_036

  /** Whole seconds as a signed 64-bit count of nanoseconds: the product wraps around. */
  function Duration(seconds: int): int {
    (seconds * SECOND + TWO_TO_THE_63) % (2 * TWO_TO_THE_63) - TWO_TO_THE_63
  }

  /** Within about 292 years either way nothing wraps; a longer wait only gets shorter. */
  lemma DurationIsExact(seconds: int)
    ensures -MAX_EXACT_SECONDS <= seconds <= MAX_EXACT_SECONDS ==> Duration(seconds) == seconds * SECOND
    ensures seconds > MAX_EXACT_SECONDS ==> Duration(seconds) <= seconds * SECOND
  {
  }

  /** Below that range the product can wrap to a long wait. */
  lemma VeryNegativeWaitsWrap()
    ensures Duration(-MAX_EXACT_SECONDS - 1) > MAX_EXACT_SECONDS * SECOND
  {
  }

  // ---- the loop ----

  /** From one check of the lock on: the state at the end, whether the chain was found free, and the failure if any. */
  function Waited(envelopeID: string, deadline: int, s: Setting): (Setting, bool, Option<Fault>)
    decreases |s.script|
  {
    var (s1, r) := Exchanged(s, ToStore(ChainLockStatus(envelopeID)));
    if !r.LockState? then (s1, false, Some(FaultOf(r)))
    else if !r.locked then (s1, true, None)
    else
      var s2 := Clocked(s1);
      if s2.now >= deadline then (s2, false, None)
      else
        var (s3, cancelled) := Slept(s2, SECOND);
        if cancelled then (s3, false, Some(Cancelled)) else Waited(envelopeID, deadline, s3)
  }

  function WaitedFor(envelopeID: string, waitSeconds: int, s: Setting): (Setting, bool, Option<Fault>) {
    var s0 := Clocked(s);
    Waited(envelopeID, s0.now + Duration(waitSeconds), s0)
  }

  /** A check that is answered uses up a turn, and so do the clock and a sleep: the loop ends. */
  lemma CheckUsesUp(s: Setting, envelopeID: string)
    ensures var (t, r) := Exchanged(s, ToStore(ChainLockStatus(envelopeID)));
            r.LockState? ==> |t.script| < |s.script|
    ensures forall t: Setting :: |Clocked(t).script| <= |t.script|
    ensures forall t: Setting :: |Slept(t, SECOND).0.script| <= |t.script|
  {
  }

  /** How often the lock is looked at. */
  function Checks(envelopeID: string, waitSeconds: int, s: Setting): int {
    |WaitedFor(envelopeID, waitSeconds, s).0.trace| - |s.trace|
  }

  predicate FoundLocked(e: Exchange) {
    e.reply.LockState? && e.reply.locked
  }

  predicate FoundFree(e: Exchange) {
    e.reply.LockState? && !e.reply.locked
  }

  /** The trace from the n-th exchange on are checks of one chain, and all but the last found it locked. */
  predicate Polling(envelopeID: string, trace: seq<Exchange>, n: nat) {
    && n < |trace|
    && (forall i :: n <= i < |trace| ==> trace[i].call == ToStore(ChainLockStatus(envelopeID)))
    && (forall i :: n <= i < |trace| - 1 ==> FoundLocked(trace[i]))
  }

  lemma {:induction false} SleepTakesTime(s: Setting, duration: nat)
    ensures var (t, cancelled) := Slept(s, duration);
            t.now >= s.now && t.trace == s.trace && (!cancelled ==> t.now >= s.now + duration)
  {
    if |s.script| > 0 {
      TimePasses(s.store, s.now, s.script[0].others);
    }
  }

  /** The loop after `k` checks, each followed by a second's sleep. */
  lemma {:induction false} WaitingIsBounded(envelopeID: string, start: int, deadline: int, s: Setting, k: nat)
    requires s.now >= start + k * SECOND && (k > 0 ==> (k - 1) * SECOND < deadline - start)
    ensures var (t, free, failure) := Waited(envelopeID, deadline, s);
            && |t.trace| > |s.trace| && t.trace[..|s.trace|] == s.trace && Polling(envelopeID, t.trace, |s.trace|)
            && var checks := k + |t.trace| - |s.trace|;
            && (checks >= 2 ==> (checks - 2) * SECOND < deadline - start)
            && (free <==> FoundFree(t.trace[|t.trace| - 1])) && (free ==> failure == None)
            && (!free && failure == None ==> FoundLocked(t.trace[|t.trace| - 1]) && t.now >= deadline)
    decreases |s.script|
  {
    hide Exchanged, Clocked, Slept;
    var check := ToStore(ChainLockStatus(envelopeID));
    ExchangedTrace(s, check);
    CheckUsesUp(s, envelopeID);
    var (s1, r) := Exchanged(s, check);
    if r.LockState? && r.locked {
      ClockMovesOn(s1);
      var s2 := Clocked(s1);
      if s2.now < deadline {
        SleepTakesTime(s2, SECOND);
        var (s3, cancelled) := Slept(s2, SECOND);
        if !cancelled {
          WaitingIsBounded(envelopeID, start, deadline, s3, k + 1);
          var t := Waited(envelopeID, deadline, s3).0;
          assert t.trace[|s.trace|] == t.trace[..|s3.trace|][|s.trace|];
        }
      }
    }
  }

  // ---- exactly how it ends ----

  function Spent(others: seq<Foreign>): nat {
    if |others| == 0 then 0 else others[0].elapsed + Spent(others[1..])
  }

  /** The time the i-th turn takes of itself. */
  function Took(script: seq<Turn>, i: nat): nat {
    if i < |script| then Spent(script[i].others) + script[i].elapsed else 0
  }

  /** The time the i-th turn takes to read the clock. */
  function Ticks(script: seq<Turn>, i: nat): nat {
    if i < |script| then script[i].elapsed else 0
  }

  /** A round is three turns of the script: the check, the clock, the sleep. The clock as it is read after check k. */
  function SeenAfter(script: seq<Turn>, own: seq<Exchange>, k: nat): int
    requires k < |own|
  {
    own[k].at + Ticks(script, 3 * k + 1)
  }

  /** The sleep after check k is cut short by the caller. */
  predicate CutAfter(script: seq<Turn>, k: nat) {
    3 * k + 2 >= |script| || script[3 * k + 2].delivery.Refused?
  }

  /** Check k found the chain locked before the deadline, and the next one came a second later, plus what the turns in
      between took. */
  predicate WaitsOn(deadline: int, script: seq<Turn>, own: seq<Exchange>, k: nat)
    requires k + 1 < |own|
  {
    && FoundLocked(own[k]) && SeenAfter(script, own, k) < deadline && !CutAfter(script, k)
    && own[k + 1].at == SeenAfter(script, own, k) + SECOND + Took(script, 3 * k + 2) + Took(script, 3 * k + 3)
  }

  /** How the wait ends, read off its checks, the clock and the caller: the loop goes on after a locked check before the
      deadline unless it is cut short; free is what the last check found; and it fails exactly if that check was not
      answered, with the reason it was given, or if it was cut short when the time was not up. */
  predicate WaitStory(envelopeID: string, deadline: int, script: seq<Turn>, own: seq<Exchange>, free: bool,
                      failure: Option<Fault>) {
    && |own| > 0
    && (forall k :: 0 <= k < |own| ==> own[k].call == ToStore(ChainLockStatus(envelopeID)))
    && (forall k :: 0 <= k < |own| - 1 ==> WaitsOn(deadline, script, own, k))
    && var last := |own| - 1;
    var (r, seen, cut) := (own[last].reply, SeenAfter(script, own, last), CutAfter(script, last));
    && (free <==> r.LockState? && !r.locked)
    && (failure.Some? <==> !r.LockState? || (r.locked && seen < deadline && cut))
    && (r.LockState? && r.locked && seen < deadline ==> cut)
    && (failure.Some? ==> failure.value == if r.Fail? then r.fault else if r.LockState? then Cancelled
                                           else UnexpectedReply)
  }

  lemma {:induction false} InterferenceTime(store: StoreState, now: int, others: seq<Foreign>)
    ensures Interfere(store, now, others).1 == now + Spent(others)
    decreases |others|
  {
    hide Apply;
    if |others| > 0 {
      InterferenceTime(Apply(store, now + others[0].elapsed, others[0].id, others[0].call).0,
                       now + others[0].elapsed, others[1..]);
    }
  }

  /** The turns of one round. */
  lemma RoundTurns(s: Setting, call: Call)
    ensures var (s1, r) := Exchanged(s, call);
            var s2 := Clocked(s1);
            var (s3, cancelled) := Slept(s2, SECOND);
            && s1.now == s.now + Took(s.script, 0) && s2.now == s1.now + Ticks(s.script, 1)
            && (r.LockState? ==> (cancelled <==> CutAfter(s.script, 0)))
            && (r.LockState? && !cancelled ==>
                  |s.script| >= 3 && s3.script == s.script[3..] && s3.now == s2.now + SECOND + Took(s.script, 2))
  {
    if |s.script| > 0 {
      InterferenceTime(s.store, s.now, s.script[0].others);
      if |s.script| > 2 {
        var s2 := Clocked(Exchanged(s, call).0);
        assert s2.script == s.script[2..] && s2.script[1..] == s.script[3..];
        InterferenceTime(s2.store, s2.now, s.script[2].others);
      }
    }
  }

  lemma NextRounds(deadline: int, script: seq<Turn>, own: seq<Exchange>, k: nat)
    requires |script| >= 3 && k + 1 < |own|
    ensures SeenAfter(script, own, k + 1) == SeenAfter(script[3..], own[1..], k)
    ensures CutAfter(script, k + 1) <==> CutAfter(script[3..], k)
    ensures k + 2 < |own| ==> (WaitsOn(deadline, script, own, k + 1) <==> WaitsOn(deadline, script[3..], own[1..], k))
  {
  }

  lemma RoundThenWait(envelopeID: string, deadline: int, script: seq<Turn>, own: seq<Exchange>, free: bool,
                      failure: Option<Fault>)
    requires |script| >= 3 && |own| > 1 && own[0].call == ToStore(ChainLockStatus(envelopeID))
    requires WaitsOn(deadline, script, own, 0)
    requires WaitStory(envelopeID, deadline, script[3..], own[1..], free, failure)
    ensures WaitStory(envelopeID, deadline, script, own, free, failure)
  {
    hide WaitsOn, SeenAfter, CutAfter;
    forall k | 0 <= k < |own| - 1 ensures WaitsOn(deadline, script, own, k) {
      if k > 0 {
        NextRounds(deadline, script, own, k - 1);
        assert WaitsOn(deadline, script[3..], own[1..], k - 1);
      }
    }
    NextRounds(deadline, script, own, |own| - 2);
    assert forall k :: 0 < k < |own| ==> own[k] == own[1..][k - 1];
  }

  lemma {:induction false} WaitedTells(envelopeID: string, deadline: int, s: Setting)
    ensures var (t, free, failure) := Waited(envelopeID, deadline, s);
            && |s.trace| <= |t.trace| && t.trace[..|s.trace|] == s.trace
            && WaitStory(envelopeID, deadline, s.script, t.trace[|s.trace|..], free, failure)
            && t.trace[|s.trace|].at == s.now + Took(s.script, 0)
    decreases |s.script|
  {
    hide Exchanged, Clocked, Slept, Took, Ticks;
    var check := ToStore(ChainLockStatus(envelopeID));
    ExchangedTrace(s, check);
    CheckUsesUp(s, envelopeID);
    RoundTurns(s, check);
    var (s1, r) := Exchanged(s, check);
    var s2 := Clocked(s1);
    ClockMovesOn(s1);
    if r.LockState? && r.locked && s2.now < deadline {
      SleepTakesTime(s2, SECOND);
      var (s3, cancelled) := Slept(s2, SECOND);
      if !cancelled {
        WaitedTells(envelopeID, deadline, s3);
        var (t, free, failure) := Waited(envelopeID, deadline, s3);
        assert t.trace[|s.trace|] == t.trace[..|s3.trace|][|s.trace|];
        var own := t.trace[|s.trace|..];
        assert own[1..] == t.trace[|s3.trace|..];
        LaterTurn(s.script);
        RoundThenWait(envelopeID, deadline, s.script, own, free, failure);
      }
    }
  }

  lemma LaterTurn(script: seq<Turn>)
    requires |script| >= 3
    ensures Took(script[3..], 0) == Took(script, 3)
  {
  }

  lemma ClockMovesOn(s: Setting)
    ensures Clocked(s).now >= s.now && Clocked(s).trace == s.trace
  {
  }

  /** The end of every wait, exactly: see WaitStory. In particular, when the last check found the chain locked and the
      clock was then at or past the deadline, the answer is "not free", and no failure. */
  lemma WaitEnds(envelopeID: string, waitSeconds: int, s: Setting)
    ensures var (t, free, failure) := WaitedFor(envelopeID, waitSeconds, s);
            var deadline := s.now + Ticks(s.script, 0) + Duration(waitSeconds);
            && |s.trace| < |t.trace| && t.trace[..|s.trace|] == s.trace
            && var own := t.trace[|s.trace|..];
            && WaitStory(envelopeID, deadline, Rest(s.script), own, free, failure)
            && own[0].at == s.now + Ticks(s.script, 0) + Took(Rest(s.script), 0)
            && (FoundLocked(own[|own| - 1]) && SeenAfter(Rest(s.script), own, |own| - 1) >= deadline ==>
                  !free && failure == None)
  {
    hide Waited, Duration, Took, WaitsOn, CutAfter;
    var s0 := Clocked(s);
    WaitedTells(envelopeID, s0.now + Duration(waitSeconds), s0);
  }

  /** Whatever happens around it: the loop makes at least one check and, for a wait whose 64-bit duration is exact, at
      most one more than the seconds asked for; every check but the last found the chain locked; the chain is called
      free exactly when the last check found it free, and not free without a failure exactly when the last check found
      it locked and the clock was then past the deadline. */
  lemma WaitOutcome(envelopeID: string, waitSeconds: int, s: Setting)
    ensures var (t, free, failure) := WaitedFor(envelopeID, waitSeconds, s);
            var checks := Checks(envelopeID, waitSeconds, s);
            && checks >= 1 && t.trace[..|s.trace|] == s.trace && Polling(envelopeID, t.trace, |s.trace|)
            && (checks >= 2 ==> (checks - 2) * SECOND < Duration(waitSeconds))
            && (waitSeconds >= -MAX_EXACT_SECONDS ==> checks <= (if waitSeconds > 0 then waitSeconds else 0) + 1)
            && var last := t.trace[|t.trace| - 1];
            && (free <==> FoundFree(last)) && (free ==> failure == None)
            && (!free && failure == None <==>
                  && FoundLocked(last)
                  && last.at + Ticks(Rest(s.script), 3 * checks - 2) >=
                       s.now + Ticks(s.script, 0) + Duration(waitSeconds))
  {
    WaitEnds(envelopeID, waitSeconds, s);
    hide Waited, Clocked, Polling, Duration, WaitsOn, CutAfter, Ticks;
    DurationIsExact(waitSeconds);
    ClockMovesOn(s);
    var s0 := Clocked(s);
    WaitingIsBounded(envelopeID, s0.now, s0.now + Duration(waitSeconds), s0, 0);
  }

  // ---- exactly when the bound holds ----

  /** A chain that is held, and a request that lasts for one sleep. */
  function Held(): Setting {
    var turn := Turn([], 0, Served, "", Ack);
    Setting(StoreState(map[], map[], map[], map["e" := Lease("s", 1)]), 0, [turn, turn, turn, turn], [])
  }

  lemma HeldIsCheckedTwice(waitSeconds: int)
    requires Duration(waitSeconds) > 0
    ensures Checks("e", waitSeconds, Held()) == 2
  {
    var s0 := Clocked(Held());
    var s1 := Exchanged(s0, ToStore(ChainLockStatus("e"))).0;
    var s3 := Slept(Clocked(s1), SECOND).0;
    hide Duration;
    assert s0.script == Held().script[1..] && s0.now == 0;
    assert Exchanged(s0, ToStore(ChainLockStatus("e"))).1 == LockState(true, "s");
    assert Waited("e", Duration(waitSeconds), s0) == Waited("e", Duration(waitSeconds), s3);
    assert s3.script == [] && |s3.trace| == 1;
  }

  /** However many seconds are asked for, at most one check is made in every environment exactly when the 64-bit
      duration is not positive. */
  lemma OneCheckExactly(waitSeconds: int)
    ensures (forall envelopeID, s :: Checks(envelopeID, waitSeconds, s) <= 1) <==> Duration(waitSeconds) <= 0
  {
    hide Checks, Duration;
    if Duration(waitSeconds) <= 0 {
      forall envelopeID, s ensures Checks(envelopeID, waitSeconds, s) <= 1 {
        WaitOutcome(envelopeID, waitSeconds, s);
      }
    } else {
      HeldIsCheckedTwice(waitSeconds);
    }
  }

  /** So "at most max(wait, 0) + 1 checks" holds in every environment exactly when the wait is positive or its duration
      is not. */
  lemma BoundHoldsExactly(waitSeconds: int)
    ensures (forall envelopeID, s ::
               Checks(envelopeID, waitSeconds, s) <= (if waitSeconds > 0 then waitSeconds else 0) + 1)
            <==> waitSeconds > 0 || Duration(waitSeconds) <= 0
  {
    hide Checks, Duration;
    if waitSeconds > 0 {
      forall envelopeID, s ensures Checks(envelopeID, waitSeconds, s) <= waitSeconds + 1 {
        WaitOutcome(envelopeID, waitSeconds, s);
      }
    } else {
      OneCheckExactly(waitSeconds);
    }
  }

  /** A wait of the first number of seconds that wraps, negative as it is, does look twice. */
  lemma NegativeWaitLooksTwice()
    ensures Checks("e", -MAX_EXACT_SECONDS - 1, Held()) == 2
  {
    VeryNegativeWaitsWrap();
    HeldIsCheckedTwice(-MAX_EXACT_SECONDS - 1);
  }
}
