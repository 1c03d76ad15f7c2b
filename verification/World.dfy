/** The whole system: any number of operations of any number of instances, interleaved one call at a time over
    one store, one document service and one provider, with time passing, operations dying anywhere, replies
    getting lost, and documents being uploaded and archived by others. A run is a sequence of labels; a label
    fixes everything that is not determined by the code.

    The collaborators are the environment. Nothing is assumed about what they answer except:
      - a document's metadata and content can be read only if it exists; its content is what its chain held at the
        version the id names, and a container is called one;
      - the provider's job ids are new, and its signed PDF extends the bytes it was given;
      - a signed PDF is accepted only while the document it is stored against is its chain's current one; it is stored
        as it is, under a new id;
      - a fileless container is merged onto what the chain holds when it is accepted; the result has a new id, or keeps
        the id of a container of that chain;
      - archiving replaces a chain's current version in place.
    Whether the provider's status echoes the document id a job was prepared for is a parameter of the system: a job row
    does not keep that id, so what a signed PDF is stored against depends on it. */
module Worlds {
  import opened Protocol
  import opened StoreSpec
  import opened Choreography
  import opened Solo
  import opened LeaseTheory

  /** What happened to a chain, and the jobs whose signatures its document then carried: content[v] is the
      set of signatures in version v, and version 0 is the uploaded document. */
  datatype Commit = PdfCommit(jobID: string) | MergeCommit(jobID: string) | RefreshCommit
  datatype Chain = Chain(commits: seq<Commit>, content: seq<set<string>>)

  datatype DocAt = DocAt(root: string, version: nat, container: bool)

  /** What the provider was asked to sign: which document, and for PAdES the bytes themselves. */
  datatype Preparation = Preparation(sigFormat: Format, docID: string, file: Option<Bytes>)

  datatype Env = Env(
    store: StoreState, now: int, echoes: bool,
    chains: map<string, Chain>, docs: map<string, DocAt>, prepared: map<string, Preparation>)

  /** What a run has done so far that its state no longer shows. */
  datatype History = History(
    evidence: map<string, Answer>,       // the answer each stored report was made from
    links: map<string, seq<string>>,     // the reports linked to each signature, in order
    marks: multiset<string>,             // jobs marked COMPLETED by a finalizing pass, once per mark
    strays: multiset<string>,            // jobs whose pass stopped between recording and marking, once per pass
    calls: seq<Timed>)                   // the store calls carried out

  datatype World = World(wired: bool, env: Env, ops: map<nat, Op>, hist: History)

  datatype Answering = Answering(delivery: Delivery, newID: string, reply: Reply)

  datatype Label =
    | Start(id: nat, op: Op)
    | Serve(id: nat, a: Answering)
    | Crash(id: nat)
    | Pass(elapsed: nat)
    | Upload(root: string, signed: set<string>, container: bool)
    | Refresh(root: string)

  function Initial(wired: bool, echoes: bool, now: int): World {
    World(wired, Env(EMPTY, now, echoes, map[], map[], map[]), map[], History(map[], map[], multiset{}, multiset{}, []))
  }

  // ---- the document service ----

  function Last<T>(s: seq<T>): T
    requires |s| > 0
  {
    s[|s| - 1]
  }

  function Extend(chain: Chain, commit: Commit, signed: set<string>): Chain {
    Chain(chain.commits + [commit], chain.content + [signed])
  }

  /** Nothing was signed on the chain between two of its versions: archiving does not count. */
  predicate NoSigning(commits: seq<Commit>, from: int, to: int) {
    && 0 <= from <= to <= |commits|
    && forall i :: from <= i < to ==> commits[i].RefreshCommit?
  }

  function CommitsOn(env: Env, root: string): seq<Commit> {
    if root in env.chains then env.chains[root].commits else []
  }

  /** The id names the latest version of a chain. */
  predicate IsCurrent(env: Env, id: string) {
    && id in env.docs && env.docs[id].root in env.chains
    && env.docs[id].version == |env.chains[env.docs[id].root].commits|
  }

  /** The CAS: all it looks at is the document the client says it signed. */
  predicate AcceptsPdf(env: Env, parentID: string, id: string) {
    IsCurrent(env, parentID) && id != "" && id !in env.docs
  }

  predicate AcceptsMerge(env: Env, docID: string, id: string) {
    && docID in env.docs
    && env.docs[docID].root in env.chains
    && |env.chains[env.docs[docID].root].content| > 0
    && id != "" && (id in env.docs ==> env.docs[id].root == env.docs[docID].root && env.docs[id].container)
  }

  function SignerOf(bytes: Bytes): string {
    match bytes
    case SignedPdf(jobID, _) => jobID
    case Fileless(jobID) => jobID
    case _ => ""
  }

  /** The signatures in a PDF: those of the bytes it extends, and its own. */
  function SignaturesIn(env: Env, bytes: Bytes): set<string> {
    match bytes
    case ChainBytes(root, version) =>
      if root in env.chains && version < |env.chains[root].content| then env.chains[root].content[version] else {}
    case SignedPdf(jobID, base) => SignaturesIn(env, base) + {jobID}
    case _ => {}
  }

  /** The chain of `root` gets a new version, named by `id`. */
  function Committed(env: Env, root: string, id: string, commit: Commit, signed: set<string>): Env
    requires root in env.chains
  {
    var chain := Extend(env.chains[root], commit, signed);
    env.(chains := env.chains[root := chain],
         docs := env.docs[id := DocAt(root, |chain.commits|, commit.MergeCommit?)])
  }

  // ---- the collaborators' answers ----

  /** The document ids a provider names for a job are the one it was prepared for. */
  predicate Echoed(env: Env, jobID: string, documents: seq<DocRef>) {
    env.echoes && jobID in env.prepared ==>
      forall i :: 0 <= i < |documents| ==> documents[i].documentID == env.prepared[jobID].docID
  }

  predicate PortAllows(env: Env, p: PortCall, r: Reply) {
    r.Fail? ||
    match p
    case GetMetadata(docID, _) =>
      r.Meta? && docID in env.docs && (env.docs[docID].container ==> r.meta.kind == Container)
    case Content(docID, _) =>
      r.Blob? && docID in env.docs && r.bytes == ChainBytes(env.docs[docID].root, env.docs[docID].version)
    case Prepare(_, _, _) => r.Prepared? && r.prep.jobID !in env.prepared
    case PrepareWithFile(_, _, _, _) => r.Prepared? && r.prep.jobID !in env.prepared
    case Status(jobID, _) => r.Provider? && Echoed(env, jobID, r.status.documents)
    case Download(jobID, _, sigFormat) =>
      && r.Blob? && jobID in env.prepared
      && (if sigFormat == PAdES
          then env.prepared[jobID].file.Some? && r.bytes == SignedPdf(jobID, env.prepared[jobID].file.value)
          else r.bytes == Fileless(jobID))
    case StoreSignedDocument(parentID, _, _, _, _) => r.NewId? && AcceptsPdf(env, parentID, r.id)
    case Complete(docID, _, _) => r.NewId? && AcceptsMerge(env, docID, r.id)
    case _ => true
  }

  function PortEffect(env: Env, p: PortCall, r: Reply): Env
    requires PortAllows(env, p, r)
  {
    if r.Fail? then env else
    match p
    case Prepare(_, doc, _) =>
      env.(prepared := env.prepared[r.prep.jobID := Preparation(doc.signatureFormat, doc.documentID, None)])
    case PrepareWithFile(_, doc, file, _) =>
      env.(prepared := env.prepared[r.prep.jobID := Preparation(doc.signatureFormat, doc.documentID, Some(file))])
    case StoreSignedDocument(parentID, signed, _, _, _) =>
      Committed(env, env.docs[parentID].root, r.id, PdfCommit(SignerOf(signed)), SignaturesIn(env, signed))
    case Complete(docID, fileless, _) =>
      var root := env.docs[docID].root;
      Committed(env, root, r.id, MergeCommit(SignerOf(fileless)), Last(env.chains[root].content) + {SignerOf(fileless)})
    case _ => env
  }

  predicate FreshId(s: StoreState, id: string) {
    id != "" && id !in s.sigs && id !in s.reports
  }

  predicate Effective(a: Answering) {
    !a.delivery.Refused?
  }

  predicate Answerable(env: Env, call: Call, a: Answering) {
    Effective(a) ==>
      match call
      case ToStore(_) => FreshId(env.store, a.newID)
      case ToPort(p) => PortAllows(env, p, a.reply)
  }

  function Effect(env: Env, call: Call, a: Answering): Env
    requires Answerable(env, call, a)
  {
    if !Effective(a) then env else
    match call
    case ToStore(s) => env.(store := Apply(env.store, env.now, a.newID, s).0)
    case ToPort(p) => PortEffect(env, p, a.reply)
  }

  function ReplyTo(env: Env, call: Call, a: Answering): Reply {
    match a.delivery
    case Refused(f) => Fail(f)
    case Lost(f) => Fail(f)
    case Served => if call.ToStore? then Apply(env.store, env.now, a.newID, call.s).1 else a.reply
  }

  // ---- history ----

  function LinksOf(h: History, sigID: string): seq<string> {
    if sigID in h.links then h.links[sigID] else []
  }

  predicate Recording(op: Op) { op.InFinalize? && op.f.FInsert? }
  predicate Marking(op: Op) { op.InFinalize? && op.f.FMark? }

  /** An operation is gone: if it was about to mark its job, its record is stray. */
  function Stopped(h: History, op: Op): History {
    if Marking(op) then h.(strays := h.strays + multiset{op.job.jobID}) else h
  }

  function NoteEvidence(h: History, op: Op, newID: string): map<string, Answer> {
    if op.InValidation? && op.at.VStore? then h.evidence[newID := op.at.answer] else h.evidence
  }

  function NoteLinks(h: History, op: Op): map<string, seq<string>> {
    if op.InValidation? && op.at.VLink? then h.links[op.v.sigID := LinksOf(h, op.v.sigID) + [op.at.reportID]]
    else h.links
  }

  /** What a call leaves in the history: `op` made it, and `next` is what became of the operation. */
  function Note(h: History, now: int, op: Op, a: Answering, next: Op): History
    requires !op.Done?
  {
    if !Effective(a) then (if next.Done? then Stopped(h, op) else h)
    else
      h.(evidence := NoteEvidence(h, op, a.newID),
         links := NoteLinks(h, op),
         marks := if Marking(op) then h.marks + multiset{op.job.jobID} else h.marks,
         strays := if Recording(op) && next.Done? then h.strays + multiset{op.job.jobID} else h.strays,
         calls := if Request(op).ToStore? then h.calls + [Timed(now, Request(op).s)] else h.calls)
  }

  // ---- steps ----

  predicate Startable(wired: bool, op: Op) {
    match op
    case InBegin(input, _) => op == BeginOp(wired, input)
    case InReconcile(_, r) => r.RGet?
    case InValidate(_, _, _, d) => d.DSig?
    case InAbandon(a) => a.AGet?
    case InSubmit(_, s) => s.SGet?
    case _ => false
  }

  predicate Enabled(w: World, l: Label) {
    match l
    case Start(id, op) => id !in w.ops && Startable(w.wired, op)
    case Serve(id, a) => id in w.ops && !w.ops[id].Done? && Answerable(w.env, Request(w.ops[id]), a)
    case Crash(id) => id in w.ops
    case Pass(_) => true
    case Upload(root, _, _) => root != "" && root !in w.env.docs && root !in w.env.chains
    case Refresh(root) => root in w.env.chains && |w.env.chains[root].content| > 0
  }

  function Served(w: World, id: nat, a: Answering): World
    requires Enabled(w, Serve(id, a))
  {
    var op := w.ops[id];
    var next := Resume(w.wired, op, ReplyTo(w.env, Request(op), a));
    w.(env := Effect(w.env, Request(op), a),
       ops := if next.Done? then w.ops - {id} else w.ops[id := next],
       hist := Note(w.hist, w.env.now, op, a, next))
  }

  /** Archiving replaces the current version in place: the ids that named it name the archived form. */
  function Refreshed(env: Env, root: string): Env
    requires root in env.chains && |env.chains[root].content| > 0
  {
    var chain := env.chains[root];
    env.(chains := env.chains[root := Extend(chain, RefreshCommit, Last(chain.content))],
         docs := map id | id in env.docs ::
           if env.docs[id].root == root && env.docs[id].version == |chain.commits|
           then env.docs[id].(version := |chain.commits| + 1) else env.docs[id])
  }

  /** A new document, possibly with signatures made elsewhere, starts a chain. */
  function Uploaded(env: Env, root: string, signed: set<string>, container: bool): Env {
    env.(chains := env.chains[root := Chain([], [signed])], docs := env.docs[root := DocAt(root, 0, container)])
  }

  function Next(w: World, l: Label): World
    requires Enabled(w, l)
  {
    match l
    case Start(id, op) => w.(ops := w.ops[id := op])
    case Serve(id, a) => Served(w, id, a)
    case Crash(id) => w.(ops := w.ops - {id}, hist := Stopped(w.hist, w.ops[id]))
    case Pass(elapsed) => w.(env := w.env.(now := w.env.now + elapsed))
    case Upload(root, signed, container) => w.(env := Uploaded(w.env, root, signed, container))
    case Refresh(root) => w.(env := Refreshed(w.env, root))
  }

  predicate Legal(w: World, ls: seq<Label>)
    decreases |ls|
  {
    |ls| > 0 ==> Enabled(w, ls[0]) && Legal(Next(w, ls[0]), ls[1..])
  }

  function Play(w: World, ls: seq<Label>): World
    requires Legal(w, ls)
    decreases |ls|
  {
    if |ls| == 0 then w else Play(Next(w, ls[0]), ls[1..])
  }
}
