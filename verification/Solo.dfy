/** One operation running to its end over the shared store. Between two of its calls any number of other
    clients' store calls may happen and any amount of time may pass; every collaborator's answer and every
    store failure comes from an arbitrary script. */
module Solo {
  import opened Protocol
  import opened StoreSpec
  import opened Choreography

  /** A store call of somebody else, `elapsed` after whatever happened before it. */
  datatype Foreign = Foreign(elapsed: nat, id: string, call: StoreCall)

  /** What becomes of a call: carried out, not carried out, or carried out with its reply lost. */
  datatype Delivery = Served | Refused(fault: Fault) | Lost(fault: Fault)

  /** Everything around one call: what others did first, the time that passed, and the answer. */
  datatype Turn = Turn(others: seq<Foreign>, elapsed: nat, delivery: Delivery, id: string, reply: Reply)

  datatype Exchange = Exchange(call: Call, reply: Reply, at: int)

  datatype Setting = Setting(store: StoreState, now: int, script: seq<Turn>, trace: seq<Exchange>)

  function Interfere(store: StoreState, now: int, others: seq<Foreign>): (StoreState, int)
    decreases |others|
  {
    if |others| == 0 then (store, now)
    else
      var first := others[0];
      Interfere(Apply(store, now + first.elapsed, first.id, first.call).0, now + first.elapsed, others[1..])
  }

  /** A store call: refused without effect, or applied with its reply delivered or lost. */
  function Deliver(store: StoreState, now: int, id: string, call: StoreCall, delivery: Delivery): (StoreState, Reply) {
    match delivery
    case Refused(f) => (store, Fail(f))
    case Served => Apply(store, now, id, call)
    case Lost(f) => (Apply(store, now, id, call).0, Fail(f))
  }

  /** The store, the time and the reply once a call has had its turn. */
  function Answered(store: StoreState, now: int, turn: Turn, call: Call): (StoreState, int, Reply) {
    var (store', then') := Interfere(store, now, turn.others);
    var at := then' + turn.elapsed;
    if call.ToPort? then (store', at, turn.reply)
    else
      var (store'', r) := Deliver(store', at, turn.id, call.s, turn.delivery);
      (store'', at, r)
  }

  /** One call. Once the script is over the request is cancelled and nothing is carried out any more. */
  function Exchanged(s: Setting, call: Call): (Setting, Reply) {
    if |s.script| == 0 then (s.(trace := s.trace + [Exchange(call, Fail(Cancelled), s.now)]), Fail(Cancelled))
    else
      var (store, at, r) := Answered(s.store, s.now, s.script[0], call);
      (Setting(store, at, s.script[1..], s.trace + [Exchange(call, r, at)]), r)
  }

  /** Reading the clock takes some time, too. */
  function Clocked(s: Setting): Setting {
    if |s.script| == 0 then s else s.(now := s.now + s.script[0].elapsed, script := s.script[1..])
  }

  /** Sleeping for `duration` or somewhat longer, while others act; or not, when the request is cancelled. */
  function Slept(s: Setting, duration: nat): (Setting, bool) {
    if |s.script| == 0 || s.script[0].delivery.Refused? then (s, true)
    else
      var turn := s.script[0];
      var (store, then') := Interfere(s.store, s.now, turn.others);
      (Setting(store, then' + duration + turn.elapsed, s.script[1..], s.trace), false)
  }

  /** The operation runs to its end. */
  function Drive(wired: bool, op: Op, s: Setting): (Setting, Outcome)
    decreases Rank(op)
  {
    if op.Done? then (s, op.outcome)
    else
      var (s', r) := Exchanged(s, Request(op));
      EveryReplyIsProgress(wired, op, r);
      Drive(wired, Resume(wired, op, r), s')
  }

  lemma DoneEnds(wired: bool)
    ensures forall out, s {:trigger Drive(wired, Done(out), s)} :: Drive(wired, Done(out), s) == (s, out)
  {
  }

  lemma DriveStep(wired: bool, op: Op, s: Setting)
    requires !op.Done?
    ensures var (s', r) := Exchanged(s, Request(op));
            Drive(wired, op, s) == Drive(wired, Resume(wired, op, r), s')
  {
  }
}
