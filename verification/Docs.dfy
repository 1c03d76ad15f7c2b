/** Every way the document side of the environment changes keeps it well-formed: a chain that gets one more version
    loses no signature, and a signed PDF ends up directly on the version it was prepared over. */
module Documents {
  import opened Protocol
  import opened StoreSpec
  import opened Choreography
  import opened Solo
  import opened Worlds
  import opened Invariants

  /** One more version of one chain: old ids stay where they are, or move with it as they may. */
  lemma ExtendGrows(e: Env, f: Env, root: string, commit: Commit, signed: set<string>)
    requires DocsOK(e) && root in e.chains
    requires f.store == e.store && f.now == e.now && f.echoes == e.echoes && f.prepared == e.prepared
    requires f.chains == e.chains[root := Extend(e.chains[root], commit, signed)]
    requires forall id :: id in e.docs ==> id in f.docs && Follows(e, e.docs[id], f.docs[id], root, commit)
    ensures Grows(e, f)
  {
    forall r | r in e.chains ensures r in f.chains && ChainGrows(e.chains[r], f.chains[r]) {
    }
    forall id | id in e.docs ensures id in f.docs && DocMoves(f, e.docs[id], f.docs[id]) {
      assert DocOK(e, id) && Follows(e, e.docs[id], f.docs[id], root, commit);
    }
  }

  /** Where an id may go when its chain gets one more version. */
  predicate Follows(e: Env, a: DocAt, b: DocAt, root: string, commit: Commit)
    requires root in e.chains
  {
    || b == a
    || (a.root == root && b == a.(version := |e.chains[root].commits| + 1)
        && (a.container || (a.version == |e.chains[root].commits| && commit.RefreshCommit?)))
  }

  /** The old versions stay right, so only the new one has to be. */
  lemma ExtendKeepsDocs(e: Env, f: Env, root: string, commit: Commit, signed: set<string>)
    requires DocsOK(e) && root in e.chains && Grows(e, f)
    requires f.prepared == e.prepared
    requires f.chains == e.chains[root := Extend(e.chains[root], commit, signed)]
    requires ChainOK(e, root) ==> CommitOK(f, root, |e.chains[root].commits|)
    requires forall id :: id in f.docs ==>
      || (id in e.docs && f.docs[id] == e.docs[id])
      || (f.docs[id].root == root && f.docs[id].version <= |e.chains[root].commits| + 1)
    ensures DocsOK(f)
  {
    assert ChainOK(e, root);
    forall r | r in f.chains ensures ChainOK(f, r) {
      assert ChainOK(e, r) && ChainGrows(e.chains[r], f.chains[r]);
      CommitsStay(e, f, r);
    }
    forall id | id in f.docs ensures DocOK(f, id) {
      if id in e.docs {
        assert DocOK(e, id);
      }
    }
    PreparedStays(e, f);
  }

  lemma PreparedStays(e: Env, f: Env)
    requires DocsOK(e) && Grows(e, f) && f.prepared == e.prepared
    ensures forall id :: id in f.prepared ==> PreparedOK(f, id)
  {
    hide Grows, HandedOut;
    forall id | id in f.prepared ensures PreparedOK(f, id) {
      assert PreparedOK(e, id);
      if e.prepared[id].file.Some? {
        HandedOutStays(e, f, e.prepared[id].docID, e.prepared[id].file.value);
      }
    }
  }

  lemma RefreshKeeps(e: Env, root: string)
    requires EnvOK(e) && root in e.chains && |e.chains[root].content| > 0
    ensures EnvOK(Refreshed(e, root)) && Grows(e, Refreshed(e, root))
  {
    var f := Refreshed(e, root);
    var signed := Last(e.chains[root].content);
    assert ChainOK(e, root);
    ExtendGrows(e, f, root, RefreshCommit, signed);
    ExtendKeepsDocs(e, f, root, RefreshCommit, signed);
    RowsStay(e, f);
  }

  lemma MergeKeeps(e: Env, docID: string, fileless: Bytes, id: string)
    requires EnvOK(e) && AcceptsMerge(e, docID, id)
    ensures var root, j := e.docs[docID].root, SignerOf(fileless);
            var f := Committed(e, root, id, MergeCommit(j), Last(e.chains[root].content) + {j});
            && EnvOK(f) && Grows(e, f)
            && id in f.docs && f.docs[id].root == root
            && OnChain(f, MergeCommit(j), root)
            && Carried(f, root) == Carried(e, root) + {j}
  {
    var root, j := e.docs[docID].root, SignerOf(fileless);
    var signed := Last(e.chains[root].content) + {j};
    var f := Committed(e, root, id, MergeCommit(j), signed);
    assert ChainOK(e, root);
    ExtendGrows(e, f, root, MergeCommit(j), signed);
    ExtendKeepsDocs(e, f, root, MergeCommit(j), signed);
    RowsStay(e, f);
    assert f.chains[root].commits[|e.chains[root].commits|] == MergeCommit(j);
  }

  /** The base a PDF extends is the current version of the chain it is stored on, signatures and all: the provider
      echoed the document id, that id has moved only with archiving since its bytes were handed out, and the CAS
      accepts it only while it names the latest version. */
  lemma BaseIsCurrent(e: Env, parentID: string, j: string)
    requires DocsOK(e) && IsCurrent(e, parentID) && j in e.prepared && e.prepared[j].file.Some?
    requires e.prepared[j].docID == parentID
    ensures var root, bytes := e.docs[parentID].root, e.prepared[j].file.value;
            && bytes.ChainBytes? && bytes.root == root
            && NoSigning(e.chains[root].commits, bytes.version, |e.chains[root].commits|)
            && SignaturesIn(e, bytes) == Carried(e, root)
  {
    assert PreparedOK(e, j);
    var root, bytes := e.docs[parentID].root, e.prepared[j].file.value;
    assert ChainOK(e, root);
    RefreshKeepsContent(e, root, bytes.version, |e.chains[root].commits|);
  }

  /** An accepted signed PDF keeps the environment well-formed, whatever the provider named; and when the provider
      echoes, the chain carries what it carried and the new signature. */
  lemma PdfKeeps(e: Env, parentID: string, signed: Bytes, id: string)
    requires EnvOK(e) && AcceptsPdf(e, parentID, id)
    requires signed.SignedPdf? && signed.jobID in e.prepared && e.prepared[signed.jobID].file == Some(signed.base)
    requires e.echoes ==> e.prepared[signed.jobID].docID == parentID
    ensures var root, j := e.docs[parentID].root, signed.jobID;
            var f := Committed(e, root, id, PdfCommit(j), SignaturesIn(e, signed));
            && EnvOK(f) && Grows(e, f)
            && id in f.docs && f.docs[id].root == root
            && OnChain(f, PdfCommit(j), root)
            && (e.echoes ==> Carried(f, root) == Carried(e, root) + {j})
  {
    var root, j := e.docs[parentID].root, signed.jobID;
    var f := Committed(e, root, id, PdfCommit(j), SignaturesIn(e, signed));
    var old' := e.chains[root].commits;
    assert ChainOK(e, root);
    ExtendGrows(e, f, root, PdfCommit(j), SignaturesIn(e, signed));
    assert CommitOK(f, root, |old'|) by {
      if e.echoes {
        BaseIsCurrent(e, parentID, j);
        NoSigningTrans(old', f.chains[root].commits, signed.base.version, |old'|, |old'|);
      }
    }
    ExtendKeepsDocs(e, f, root, PdfCommit(j), SignaturesIn(e, signed));
    RowsStay(e, f);
    assert f.chains[root].commits[|old'|] == PdfCommit(j);
  }

  lemma UploadGrows(e: Env, root: string, signed: set<string>, container: bool)
    requires DocsOK(e) && root !in e.docs && root !in e.chains
    ensures Grows(e, Uploaded(e, root, signed, container))
  {
    var f := Uploaded(e, root, signed, container);
    forall id | id in e.docs ensures DocMoves(f, e.docs[id], f.docs[id]) {
      assert DocOK(e, id);
    }
  }

  lemma UploadKeeps(e: Env, root: string, signed: set<string>, container: bool)
    requires EnvOK(e) && root !in e.docs && root !in e.chains
    ensures EnvOK(Uploaded(e, root, signed, container)) && Grows(e, Uploaded(e, root, signed, container))
  {
    var f := Uploaded(e, root, signed, container);
    UploadGrows(e, root, signed, container);
    hide Grows, RowsOK;
    forall r | r in f.chains ensures ChainOK(f, r) {
      if r != root {
        assert ChainOK(e, r);
        CommitsStay(e, f, r);
      }
    }
    forall id | id in f.docs ensures DocOK(f, id) {
      if id != root {
        assert DocOK(e, id);
      }
    }
    PreparedStays(e, f);
    RowsStay(e, f);
  }

  /** The provider takes a job: its id is new, so no earlier job's bytes change. */
  lemma PrepareKeeps(e: Env, jobID: string, p: Preparation)
    requires EnvOK(e) && jobID !in e.prepared
    requires p.sigFormat == PAdES <==> p.file.Some?
    requires p.file.Some? ==> HandedOut(e, p.docID, p.file.value)
    ensures var f := e.(prepared := e.prepared[jobID := p]); EnvOK(f) && Grows(e, f)
  {
    var f := e.(prepared := e.prepared[jobID := p]);
    assert Grows(e, f) by {
      forall id | id in e.docs ensures DocMoves(f, e.docs[id], f.docs[id]) {
        assert DocOK(e, id);
      }
    }
    forall r | r in f.chains ensures ChainOK(f, r) {
      assert ChainOK(e, r);
      CommitsStay(e, f, r);
    }
    forall id | id in f.docs ensures DocOK(f, id) {
      assert DocOK(e, id);
    }
    forall id | id in f.prepared ensures PreparedOK(f, id) {
      if id != jobID {
        assert PreparedOK(e, id);
      }
    }
    RowsStay(e, f);
  }

  lemma PortCallKeeps(w: World, p: PortCall, r: Reply)
    requires EnvOK(w.env) && PortCallOK(w, p) && PortAllows(w.env, p, r)
    ensures EnvOK(PortEffect(w.env, p, r)) && Grows(w.env, PortEffect(w.env, p, r))
  {
    hide EnvOK, Grows;
    var e := w.env;
    if r.Fail? {
      GrowsRefl(e);
      return;
    }
    match p
    case Prepare(_, doc, _) => PrepareKeeps(e, r.prep.jobID, Preparation(doc.signatureFormat, doc.documentID, None));
    case PrepareWithFile(_, doc, file, _) =>
      PrepareKeeps(e, r.prep.jobID, Preparation(doc.signatureFormat, doc.documentID, Some(file)));
    case StoreSignedDocument(parentID, signed, _, _, _) => PdfKeeps(e, parentID, signed, r.id);
    case Complete(docID, fileless, _) => MergeKeeps(e, docID, fileless, r.id);
    case _ => GrowsRefl(e);
  }

  lemma GrowsRefl(e: Env)
    requires EnvOK(e)
    ensures Grows(e, e)
  {
    forall id | id in e.docs ensures DocMoves(e, e.docs[id], e.docs[id]) {
      assert DocOK(e, id);
    }
  }

  /** Any call of any operation. */
  lemma CallKeeps(w: World, call: Call, a: Answering)
    requires EnvOK(w.env) && CallOK(w, call) && Answerable(w.env, call, a)
    ensures EnvOK(Effect(w.env, call, a)) && Grows(w.env, Effect(w.env, call, a))
  {
    hide EnvOK, Grows, PortCallOK, StoreCallOK, PortAllows, PortEffect, Apply;
    if !Effective(a) {
      GrowsRefl(w.env);
    } else {
      match call
      case ToStore(s) => StoreCallKeeps(w, s, a.newID);
      case ToPort(p) => PortCallKeeps(w, p, a.reply);
    }
  }
}
