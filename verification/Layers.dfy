/** The two layers are the same system: what happens to one operation of an interleaved run is one run of the
    conductor's method for it, with everybody else's calls as its interference. So whatever is proved of the
    conductor's methods holds of every operation in the crowd, and the crowd is made of nothing but those methods. */
module Layers {
  import opened Protocol
  import opened StoreSpec
  import opened Choreography
  import opened Solo
  import opened Telling
  import opened Worlds

  /** How an operation returned: where it stood, the reply it got there, what it returned, the store and the time. */
  datatype Return = Return(last: Op, reply: Reply, outcome: Outcome, store: StoreState, now: int)

  /** The operation's own next step. */
  function Resumed(w: World, id: nat, a: Answering): Op
    requires Enabled(w, Serve(id, a))
  {
    Resume(w.wired, w.ops[id], ReplyTo(w.env, Request(w.ops[id]), a))
  }

  /** The return of operation `id` in a run, if it gets that far. */
  function Returned(w: World, ls: seq<Label>, id: nat): Option<Return>
    requires Legal(w, ls)
    decreases |ls|
  {
    if |ls| == 0 || ls[0] == Crash(id) then None
    else
      var v := Next(w, ls[0]);
      if ls[0].Serve? && ls[0].id == id && Resumed(w, id, ls[0].a).Done?
      then
        Some(Return(w.ops[id], ReplyTo(w.env, Request(w.ops[id]), ls[0].a), Resumed(w, id, ls[0].a).outcome,
                    v.env.store, v.env.now))
      else Returned(v, ls[1..], id)
  }

  /** The run as operation `id` sees it: its own calls' turns, each with what the others did to the store since the
      last one. `others` and `elapsed` are what has happened since then so far. */
  function Seen(w: World, ls: seq<Label>, id: nat, others: seq<Foreign>, elapsed: nat): seq<Turn>
    requires Legal(w, ls)
    decreases |ls|
  {
    if |ls| == 0 then []
    else
      var v := Next(w, ls[0]);
      match ls[0]
      case Serve(i, a) =>
        var call := Request(w.ops[i]);
        if i == id then
          [Turn(others, elapsed, a.delivery, a.newID, ReplyTo(w.env, call, a))] + Seen(v, ls[1..], id, [], 0)
        else if call.ToStore? && Effective(a) then
          Seen(v, ls[1..], id, others + [Foreign(elapsed, a.newID, call.s)], 0)
        else Seen(v, ls[1..], id, others, elapsed)
      case Pass(e) => Seen(v, ls[1..], id, others, elapsed + e)
      case _ => Seen(v, ls[1..], id, others, elapsed)
  }

  lemma {:induction false} InterfereOnce(store: StoreState, now: int, others: seq<Foreign>, f: Foreign)
    ensures var (store', now') := Interfere(store, now, others);
            Interfere(store, now, others + [f]) == (Apply(store', now' + f.elapsed, f.id, f.call).0, now' + f.elapsed)
    decreases |others|
  {
    hide Apply;
    if |others| > 0 {
      var o := others[0];
      assert (others + [f])[1..] == others[1..] + [f];
      InterfereOnce(Apply(store, now + o.elapsed, o.id, o.call).0, now + o.elapsed, others[1..], f);
    } else {
      assert others + [f] == [f] && [f][1..] == [];
    }
  }

  lemma PortsSpareTheStore(e: Env, p: PortCall, r: Reply)
    requires PortAllows(e, p, r)
    ensures PortEffect(e, p, r).store == e.store && PortEffect(e, p, r).now == e.now
  {
  }

  /** The turn of a call, taken alone, has the effect and the reply the call has in the crowd. */
  lemma OneTurn(w: World, id: nat, a: Answering, s: Setting, others: seq<Foreign>, elapsed: nat)
    requires Enabled(w, Serve(id, a))
    requires Interfere(s.store, s.now, others) == (w.env.store, w.env.now - elapsed)
    requires |s.script| > 0
    requires s.script[0] == Turn(others, elapsed, a.delivery, a.newID, ReplyTo(w.env, Request(w.ops[id]), a))
    ensures var (t, r) := Exchanged(s, Request(w.ops[id]));
            var v := Next(w, Serve(id, a));
            && t.store == v.env.store && t.now == v.env.now == w.env.now && t.script == s.script[1..]
            && r == ReplyTo(w.env, Request(w.ops[id]), a)
  {
    hide Apply, Interfere, Request, Resume, Note, PortEffect, PortAllows;
    var call := Request(w.ops[id]);
    if Effective(a) && call.ToPort? {
      PortsSpareTheStore(w.env, call.p, a.reply);
    }
  }

  /** Somebody else's step, as interference. */
  lemma OthersStep(w: World, l: Label, id: nat)
    requires id in w.ops && Enabled(w, l) && l != Crash(id) && (l.Serve? ==> l.id != id)
    ensures var v := Next(w, l);
            && id in v.ops && v.ops[id] == w.ops[id] && v.wired == w.wired
            && v.env.now == w.env.now + (if l.Pass? then l.elapsed else 0)
            && v.env.store == if l.Serve? && Request(w.ops[l.id]).ToStore? && Effective(l.a)
                              then Apply(w.env.store, w.env.now, l.a.newID, Request(w.ops[l.id]).s).0
                              else w.env.store
  {
    hide Apply, Request, Resume, ReplyTo, Note;
  }

  /** If an operation of an interleaved run returns, then its own choreography, run alone over the turns it saw, returns
      the same outcome and leaves the same store at the same time. */
  lemma {:induction false} EveryOperationIsAMethodRun(w: World, ls: seq<Label>, id: nat, s: Setting,
                                                      others: seq<Foreign>,
                                                       elapsed: nat)
    requires Legal(w, ls) && id in w.ops && !w.ops[id].Done?
    requires Interfere(s.store, s.now, others) == (w.env.store, w.env.now - elapsed)
    requires s.script == Seen(w, ls, id, others, elapsed)
    ensures Returned(w, ls, id).Some? ==>
              var ret := Returned(w, ls, id).value;
              var (t, out) := Drive(w.wired, w.ops[id], s);
              out == ret.outcome && t.store == ret.store && t.now == ret.now
    decreases |ls|
  {
    hide Drive, Exchanged, Interfere, Apply, Next, Request, Resume, ReplyTo, Effective;
    if |ls| > 0 && ls[0] != Crash(id) {
      var l, v := ls[0], Next(w, ls[0]);
      if l.Serve? && l.id == id {
        MyStep(w, ls, id, s, others, elapsed);
      } else {
        OthersStep(w, l, id);
        if l.Serve? && Request(w.ops[l.id]).ToStore? && Effective(l.a) {
          var f := Foreign(elapsed, l.a.newID, Request(w.ops[l.id]).s);
          InterfereOnce(s.store, s.now, others, f);
          EveryOperationIsAMethodRun(v, ls[1..], id, s, others + [f], 0);
        } else {
          EveryOperationIsAMethodRun(v, ls[1..], id, s, others, elapsed + if l.Pass? then l.elapsed else 0);
        }
      }
    }
  }

  lemma {:induction false} MyStep(w: World, ls: seq<Label>, id: nat, s: Setting, others: seq<Foreign>, elapsed: nat)
    requires Legal(w, ls) && |ls| > 0 && ls[0].Serve? && ls[0].id == id && id in w.ops && !w.ops[id].Done?
    requires Interfere(s.store, s.now, others) == (w.env.store, w.env.now - elapsed)
    requires s.script == Seen(w, ls, id, others, elapsed)
    ensures Returned(w, ls, id).Some? ==>
              var ret := Returned(w, ls, id).value;
              var (t, out) := Drive(w.wired, w.ops[id], s);
              out == ret.outcome && t.store == ret.store && t.now == ret.now
    decreases |ls|, 0
  {
    var a, v, op := ls[0].a, Next(w, ls[0]), w.ops[id];
    OneTurn(w, id, a, s, others, elapsed);
    DriveStep(w.wired, op, s);
    DoneEnds(w.wired);
    var s' := Exchanged(s, Request(op)).0;
    var next := Resumed(w, id, a);
    assert next.Done? ==> next == Done(next.outcome);
    assert !next.Done? ==> id in v.ops && v.ops[id] == next && v.wired == w.wired;
    hide Drive, Exchanged, Interfere, Apply, Enabled, Next, Request, Resume, ReplyTo, Effective;
    if !next.Done? {
      assert Interfere(s'.store, s'.now, []) == (s'.store, s'.now) by {
        NoInterference(s'.store, s'.now);
      }
      EveryOperationIsAMethodRun(v, ls[1..], id, s', [], 0);
    }
  }

  lemma NoInterference(store: StoreState, now: int)
    ensures Interfere(store, now, []) == (store, now)
  {
  }

  // ---- stories in the crowd ----

  /** The calls operation `id` makes in a run until it returns, and the replies it gets. */
  function Said(w: World, ls: seq<Label>, id: nat): seq<Exchange>
    requires Legal(w, ls)
    decreases |ls|
  {
    if |ls| == 0 || ls[0] == Crash(id) then []
    else
      var v := Next(w, ls[0]);
      if ls[0].Serve? && ls[0].id == id then
        var e := Exchange(Request(w.ops[id]), ReplyTo(w.env, Request(w.ops[id]), ls[0].a), w.env.now);
        [e] + if Resumed(w, id, ls[0].a).Done? then [] else Said(v, ls[1..], id)
      else Said(v, ls[1..], id)
  }

  /** In every interleaved run, what an operation that returns has said and heard is one of its runs. So every operation
      in the crowd tells its story. */
  lemma {:induction false} ToldInTheCrowd(w: World, ls: seq<Label>, id: nat)
    requires Legal(w, ls) && id in w.ops && !w.ops[id].Done?
    ensures Returned(w, ls, id).Some? ==>
              Runs(w.wired, w.ops[id], Said(w, ls, id), Returned(w, ls, id).value.outcome)
    decreases |ls|
  {
    if |ls| > 0 && ls[0] != Crash(id) {
      var l, v, op := ls[0], Next(w, ls[0]), w.ops[id];
      if l.Serve? && l.id == id {
        var next := Resumed(w, id, l.a);
        assert !next.Done? ==> id in v.ops && v.ops[id] == next && v.wired == w.wired;
        hide Next, Request, Resume, ReplyTo, Enabled, Runs;
        RunsDone(w.wired);
        if next.Done? {
          assert next == Done(next.outcome);
          RunsStep(w.wired, op, Said(w, ls, id), next.outcome);
        } else {
          ToldInTheCrowd(v, ls[1..], id);
          if Returned(v, ls[1..], id).Some? {
            RunsStep(w.wired, op, Said(w, ls, id), Returned(v, ls[1..], id).value.outcome);
          }
        }
      } else {
        OthersStep(w, l, id);
        hide Next, Request, Resume, ReplyTo, Enabled, Runs;
        ToldInTheCrowd(v, ls[1..], id);
      }
    }
  }
}
