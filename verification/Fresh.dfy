/** When a Begin signs the chain's current version. The lease does not decide it (Guarantees.LeaseDoesNotMeanCurrent);
    what does is whether anybody signs the chain between the resolution of its head and the reading of its bytes. */
module Freshness {
  import opened Protocol
  import opened StoreSpec
  import opened Choreography
  import opened Solo
  import opened Worlds
  import opened Invariants
  import opened Reachable
  import opened Steps
  import opened Guarantees
  import opened Layers

  /** Nobody signed on the chain between two states of a run. */
  predicate Unsigned(e: Env, f: Env, root: string) {
    NoSigning(CommitsOn(f, root), |CommitsOn(e, root)|, |CommitsOn(f, root)|)
  }

  // ---- one step ----

  /** The environment goes on: the chain as it was and its id with it, or archived and the id along, or signed, if not
      otherwise changed. */
  predicate GoesOn(e: Env, f: Env, id: string, root: string) {
    && id in e.docs && id in f.docs && f.docs[id].root == root
    && (f.docs[id].version == |CommitsOn(f, root)|
        || (|CommitsOn(f, root)| > |CommitsOn(e, root)| && !CommitsOn(f, root)[|CommitsOn(e, root)|].RefreshCommit?))
  }

  lemma CommitGoesOn(e: Env, root: string, newID: string, commit: Commit, signed: set<string>, id: string)
    requires IsCurrent(e, id) && !e.docs[id].container && root in e.chains && !commit.RefreshCommit?
    requires newID in e.docs ==> e.docs[newID].container
    ensures GoesOn(e, Committed(e, root, newID, commit, signed), id, e.docs[id].root)
  {
  }

  lemma PortGoesOn(e: Env, p: PortCall, r: Reply, id: string)
    requires PortAllows(e, p, r) && IsCurrent(e, id) && !e.docs[id].container
    ensures GoesOn(e, PortEffect(e, p, r), id, e.docs[id].root)
  {
    if r.Fail? {
      return;
    }
    match p
    case StoreSignedDocument(parentID, signed, _, _, _) =>
      hide GoesOn, Committed;
      CommitGoesOn(e, e.docs[parentID].root, r.id, PdfCommit(SignerOf(signed)), SignaturesIn(e, signed), id);
    case Complete(docID, fileless, _) =>
      var root := e.docs[docID].root;
      hide GoesOn, Committed;
      CommitGoesOn(e, root, r.id, MergeCommit(SignerOf(fileless)), Last(e.chains[root].content) + {SignerOf(fileless)},
                   id);
    case _ =>
  }

  lemma RefreshGoesOn(e: Env, root: string, id: string)
    requires IsCurrent(e, id) && root in e.chains && |e.chains[root].content| > 0
    ensures GoesOn(e, Refreshed(e, root), id, e.docs[id].root)
  {
  }

  lemma StepGoesOn(w: World, l: Label, id: string)
    requires Enabled(w, l) && IsCurrent(w.env, id) && !w.env.docs[id].container
    ensures GoesOn(w.env, Next(w, l).env, id, w.env.docs[id].root)
  {
    match l
    case Serve(i, a) =>
      var call := Request(w.ops[i]);
      if Effective(a) && call.ToPort? {
        PortGoesOn(w.env, call.p, a.reply, id);
      }
      hide Apply, PortAllows, PortEffect, Request, Resume, Note;
    case Refresh(root) => RefreshGoesOn(w.env, root, id);
    case _ =>
  }

  // ---- runs ----

  /** An id that is not current is so because of a signing, which stays in the chain. */
  lemma {:induction false} StaysCurrent(w: World, ls: seq<Label>, id: string)
    requires WorldOK(w) && Legal(w, ls) && IsCurrent(w.env, id) && !w.env.docs[id].container
    requires Unsigned(w.env, Play(w, ls).env, w.env.docs[id].root)
    ensures IsCurrent(Play(w, ls).env, id)
    decreases |ls|
  {
    hide Enabled, Next, WorldOK, GoesOn, Unsigned, Grows, CommitsOn;
    if |ls| > 0 {
      var v, u := Next(w, ls[0]), Play(w, ls);
      StepKeeps(w, ls[0]);
      RunKeeps(v, ls[1..]);
      StepGoesOn(w, ls[0], id);
      Forward(w.env, v.env, u.env, id);
      StaysCurrent(v, ls[1..], id);
    }
  }

  /** One step of an unsigned stretch leaves the id current and the rest of the stretch unsigned. */
  lemma Forward(e: Env, f: Env, g: Env, id: string)
    requires IsCurrent(e, id) && !e.docs[id].container && Grows(e, f) && Grows(f, g)
    requires GoesOn(e, f, id, e.docs[id].root) && Unsigned(e, g, e.docs[id].root)
    ensures IsCurrent(f, id) && !f.docs[id].container && f.docs[id].root == e.docs[id].root
    ensures Unsigned(f, g, e.docs[id].root)
  {
    var root := e.docs[id].root;
    assert DocMoves(f, e.docs[id], f.docs[id]);
    assert ChainGrows(e.chains[root], f.chains[root]) && ChainGrows(f.chains[root], g.chains[root]);
    var now, then' := CommitsOn(f, root), CommitsOn(g, root);
    assert |now| > |CommitsOn(e, root)| ==> now[|CommitsOn(e, root)|] == then'[|CommitsOn(e, root)|];
  }

  /** The id of a PDF or an unsigned document that names its chain's current version still does so later exactly when
      nobody has signed on the chain in between. */
  lemma CurrentExactlyWhenUnsigned(w: World, ls: seq<Label>, id: string)
    requires WorldOK(w) && Legal(w, ls) && IsCurrent(w.env, id) && !w.env.docs[id].container
    ensures IsCurrent(Play(w, ls).env, id) <==> Unsigned(w.env, Play(w, ls).env, w.env.docs[id].root)
  {
    RunKeeps(w, ls);
    hide WorldOK, Legal, Play;
    var v := Play(w, ls);
    if Unsigned(w.env, v.env, w.env.docs[id].root) {
      hide Unsigned, IsCurrent, Grows;
      StaysCurrent(w, ls, id);
    } else {
      assert DocMoves(v.env, w.env.docs[id], v.env.docs[id]);
      hide Grows;
    }
  }

  // ---- Begin ----

  /** A Begin that has resolved the head, while it was the chain's current document, and goes on, however slowly, to
      read its bytes as a PDF: what it is given, and will have signed, is the chain's current version, with all the
      signatures the chain carries, if and only if nobody has signed on the chain since, whatever has become of the
      lease. */
  lemma BeginSignsTheCurrentVersionExactly(w: World, ls: seq<Label>, id: nat, a: Answering)
    requires Reached(w) && id in w.ops && w.ops[id].InBegin? && w.ops[id].b.BMeta?
    requires IsCurrent(w.env, w.ops[id].b.docID)
    requires Legal(w, ls) && var v := Play(w, ls);
             && id in v.ops && v.ops[id].InBegin? && v.ops[id].b.BContent? && v.ops[id].b.docID == w.ops[id].b.docID
             && Enabled(v, Serve(id, a)) && a.delivery.Served? && a.reply.Blob?
    ensures var v := Play(w, ls);
            var root := w.env.docs[w.ops[id].b.docID].root;
            var next := Resumed(v, id, a);
            && next.InBegin? && next.b.BPrepareFile? && next.b.file.ChainBytes? && next.b.file.root == root
            && (next.b.file.version == |CommitsOn(v.env, root)| <==> Unsigned(w.env, v.env, root))
            && (Unsigned(w.env, v.env, root) ==> SignaturesIn(v.env, next.b.file) == Carried(v.env, root))
  {
    var docID, v := w.ops[id].b.docID, Play(w, ls);
    ReachedOK(w);
    RunKeeps(w, ls);
    BytesAreOfDoc(v, id, a);
    hide Legal, Play, Enabled, Resume, Request, ReplyTo, EnvOK, OpOK, EvidenceOK, LinksOK, PdfOnce, LocksOK;
    NoContainer(w, v, docID, id);
    CurrentExactlyWhenUnsigned(w, ls, docID);
    assert DocMoves(v.env, w.env.docs[docID], v.env.docs[docID]);
    ContentOfCurrent(v.env, w.env.docs[docID].root);
    hide Grows, Unsigned;
  }

  lemma BytesAreOfDoc(v: World, id: nat, a: Answering)
    requires Enabled(v, Serve(id, a)) && v.ops[id].InBegin? && v.ops[id].b.BContent?
    requires a.delivery.Served? && a.reply.Blob?
    ensures var next, docID := Resumed(v, id, a), v.ops[id].b.docID;
            && docID in v.env.docs
            && next == InBegin(v.ops[id].input, BPrepareFile(docID, v.ops[id].b.meta,
                         ChainBytes(v.env.docs[docID].root, v.env.docs[docID].version)))
  {
  }

  /** What is read as a PDF is no container, now as before. */
  lemma NoContainer(w: World, v: World, docID: string, id: nat)
    requires OpsOK(v) && Grows(w.env, v.env) && docID in w.env.docs
    requires id in v.ops && v.ops[id].InBegin? && v.ops[id].b.BContent? && v.ops[id].b.docID == docID
    ensures !w.env.docs[docID].container
  {
    assert OpOK(v, v.ops[id]);
    assert DocMoves(v.env, w.env.docs[docID], v.env.docs[docID]);
  }

  lemma ContentOfCurrent(e: Env, root: string)
    requires EnvOK(e) && root in e.chains
    ensures SignaturesIn(e, ChainBytes(root, |CommitsOn(e, root)|)) == Carried(e, root)
  {
    assert ChainOK(e, root);
  }
}
