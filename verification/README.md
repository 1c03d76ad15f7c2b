# The signing conductor, verified

signflow's conductor drives document signings on behalf of many signers on many instances at once. It talks to a
store it shares with all other instances, to a document service that keeps each document's chain of signed versions
behind a compare-and-swap, to a signing provider and to an envelope service. This project models the conductor, its
in-memory store and the login gate, and proves what they promise together: in every interleaving, with operations
dying anywhere, replies getting lost and leases running out.

## How it is built

**Store.** `StoreSpec` says what each store call does to a value; `MemoryStore.Memory` is the in-memory store with
rows on the heap, mutated through references, and every method is proved to do to its abstract view exactly what
`StoreSpec.Apply` says. `LeaseTheory` studies the chain lock on its own, over all histories of calls.

**Conductor.** `Choreography` describes every operation as a machine of pending calls: `Request` is the store or
collaborator call it makes next, `Resume` what it does with the reply. `Solo.Drive` runs one operation to its end
over an arbitrary script of replies, lost replies, failures, delays and other clients' store calls. The class
`Conducting.Conductor` has the real control flow (the merge loop, the notification loop, the `locked` flag with its
deferred release, the polling loop of `WaitChainFree`) and works on the heap store through a `Gateway`; each of its
methods is proved to make exactly the calls and return exactly the outcome `Drive` prescribes, for every script.
`Waits` does the same for `WaitChainFree`, whose loop is a function of everything around it.

**Stories.** What an operation asks and answers is also told without the machine: `Stories` says, for each operation, which
exchanges and which outcome are its story, field by field, looking at the replies alone. `Telling` proves that the runs of
an operation are exactly the exchanges and outcomes that tell its story, the class's methods have their story in their
contracts, and `Answers` draws the conclusions in plain words. `Histories` does the same for the store: what it answers
about a job or a record is determined by the history of calls made of it.

**Everybody at once.** `Worlds` interleaves any number of operations one call at a time, with crashes, lost replies,
time, uploads and archiving. `Layers` proves that each operation of such a run is one run of its own choreography, so
the two views are the same system and every operation of the crowd tells its story. `Invariants`, `Documents`, `Reachable` and `Steps` prove one invariant of all
reachable worlds: what an operation knows only grows, so nobody's step spoils what somebody else relies on.
`Guarantees`, `LostRaces`, `Rivals`, `Freshness`, `Counting` and `OnceOnly` draw the conclusions about whole runs;
`CallByCall`, `BestEffort`, `BeginLeases` and `ChainRelease` those about single operations. `Witnesses` (XAdES),
`PdfWitnesses` (PAdES, on an envelope) and `EchoWitnesses` (see below) build concrete runs from the empty system, so that
what is said of reachable worlds is said of something, and what is said to go wrong does go wrong.

## What is assumed of the surroundings

Stated in `Worlds` (`PortAllows`, `AcceptsPdf`, `AcceptsMerge`, `FreshId`), and nothing else:

- only documents that exist can be read; their content is what their chain held at the version the id names, and a
  container's metadata says that it is one;
- the provider's job ids are new, its signed PDF extends the bytes it was sent, its fileless container is the job's own;
- the document service accepts a signed PDF exactly while the document it is stored against (the parent's id, all that
  the service can compare) is its chain's current one; it never looks into the bytes and stores them as they are, under a
  new id (clients/document.go:143-156; README.md:210 speaks of superseding in place, but ids that stayed with the latest
  version could not tell a stale parent from a current one);
- it merges a fileless container onto what the chain holds at that moment; the result has a new id or keeps that of a
  container of the same chain;
- an archived document keeps its id;
- the store's new ids are new.

Whether the provider's status **echoes** the document id a job was prepared for is a parameter (`Env.echoes`). The job row
does not keep that id (orchestrator/orchestrator.go:385-395), so the parent a signed PDF is stored against is whatever the
provider names at the end (orchestrator/orchestrator.go:527, 551). What rests on the compare-and-swap is therefore proved
for providers that echo, everything else for all; and `EchoWitnesses` proves of each of these guarantees that it holds in
every run if and only if the provider echoes, with a run that breaks it otherwise: that no signature is taken off a chain
(`EchoIsExactlyWhatIsNeeded`), that no superseded signing is recorded, that no two signings over the same bytes are, and
that no PAdES signing is recorded twice.

Metadata otherwise, heads, envelope views, provider states, errors and their status codes are arbitrary at every call. A
head, in particular, may be stale by the time it is used.

## Where the code does less than one might expect

- **Holding the lease does not mean signing the current head.** The head is resolved before the lease is acquired
  (`Guarantees.LeaseDoesNotMeanCurrent`, and on a concrete run `PdfWitnesses.StaleBeginGetsTheLease`). Whatever becomes of
  the lease, a Begin that resolved the current head signs the current version if and only if nobody signs on the chain
  between the resolution and the reading of the bytes (`Freshness.BeginSignsTheCurrentVersionExactly`). The chain's
  safety therefore rests on the compare-and-swap, and that on the provider's echo.
- **The lease is the slot's, not the attempt's.** A Begin that gives up ends the hold that another attempt of the same
  slot relies on (`Guarantees.GivingUpReleasesTheSlot`, `PdfWitnesses.SecondAttemptLosesTheHold`).
- **Terminal states can be left.** A job's state is left exactly when a poll notes another answer, a pass marks the job,
  or a client signature's other state is noted, which the submission does without any terminal check; so it lasts through
  a run exactly when none of these happens (`OnceOnly.StateIsLeftExactly`, `OnceOnly.StateStaysExactly`). COMPLETED is
  absorbing under the source's own assumptions: reconciles of a job do not overlap, no client signature takes effect on a
  COMPLETED job, and the provider never reports COMPLETED (`OnceOnly.CompletedIsAbsorbing`). FAILED is not, even then
  (runs: `Witnesses.FailedIsNotAbsorbing`, `Witnesses.FailedCanBeReopened`); it lasts once no earlier pass is at work and
  as long as no client signature's other state is noted (`OnceOnly.SettledStays`). Each of the assumptions is needed
  (`Witnesses.RecordedTwice`, `Witnesses.CompletedCanBeReopened`, `Witnesses.CompletedWithoutRecord`).
- **A signing can be recorded twice.** In every run, with no assumptions, a job has exactly as many records as it has
  marks, passes that stopped between recording and marking, and passes that are there now
  (`Counting.EveryRecordIsCounted`). It is recorded at most once exactly when no pass records it while one of these
  already accounts for it (`Counting.RecordedAtMostOnceExactly`). Overlapping polls do record an XAdES signing twice
  (`Witnesses.RecordedTwice`); a PAdES signing is recorded at most once in every run exactly when the provider echoes
  (`EchoWitnesses.PdfIsRecordedOnceExactly`).
- **A very negative wait is a long wait.** Below -9,223,372,036 seconds the 64-bit duration can wrap around, and nothing
  clamps the wait from below (routes/signings.go:220-226). "At most max(wait, 0) + 1 checks" holds in every environment
  if and only if the wait is positive or its 64-bit duration is not (`Waits.BoundHoldsExactly`); the first wait that wraps
  does check twice (`Waits.NegativeWaitLooksTwice`).
- **A failed signing keeps its lease.** Provider failure and a lost race release nothing; the chain is free after 300
  seconds (`Guarantees.AbandonmentIsBounded`).

## Model

| member | source | states |
|---|---|---|
| MemoryStore.Memory.constructor | store/memory.go:29-36 | a new store is empty |
| MemoryStore.Memory.SaveJob | store/memory.go:39-59 | a known job id is refused and nothing changes; otherwise exactly one row is added, PREPARING when the provider gave no state |
| MemoryStore.Memory.ReconcileJob | store/memory.go:62-74 | changes the state and time of that one row in place, whatever state it had; an absent job is an error |
| MemoryStore.Memory.GetJob | store/memory.go:77-88 | a copy of the row, or not found; nothing changes |
| MemoryStore.Memory.InsertSignature | store/memory.go:91-108 | adds exactly one record under the new id |
| MemoryStore.Memory.GetSignature | store/memory.go:111-122 | a copy of the record, or not found; nothing changes |
| MemoryStore.Memory.RecordValidation | store/memory.go:125-140 | overwrites one record's link and pass flag in place, its level only with a non-empty one |
| MemoryStore.Memory.StoreReport | store/memory.go:143-150 | keeps the report under the new id |
| MemoryStore.Memory.AcquireChainLock | store/memory.go:154-168 | refused exactly when another slot's entry has not expired; otherwise the slot's entry, for the time to live |
| MemoryStore.Memory.ReleaseChainLock | store/memory.go:171-180 | drops the entry only if it is the caller's own |
| MemoryStore.Memory.ChainLockStatus | store/memory.go:183-192 | the holder of an unexpired entry, else free; nothing changes |
| MemoryStore.Memory.Serve | store/store.go:122-162 | every call of the store contract does to the view what the contract's functions on values say |
| LeaseTheory.GrantedExactlyWhenFree | store/memory.go:162-167 | over every history, an acquire is granted if and only if no other slot has an unexpired grant it neither released nor refreshed |
| LeaseTheory.HoldsAreDisjoint | store/store.go:146-151 | two slots never hold one chain at the same time |
| LeaseTheory.StandingHolds | store/memory.go:165-167 | an unreleased grant is the entry of its chain until it expires |
| LeaseTheory.EntryHasGrant | store/memory.go:165-178 | every entry comes from a grant that its slot has not released or refreshed since |
| LeaseTheory.KeptAliveHolds | store/memory.go:154-168 | a slot that refreshes in time keeps the entry, at least until its latest refresh expires |
| LeaseTheory.KeepAliveExcludes | store/store.go:146-151 | while a slot keeps its lease alive, its acquires are granted and nobody else's |
| LeaseTheory.FreeExactly | store/memory.go:154-192 | a chain is free if and only if every grant on it that was neither released nor refreshed has expired; refused attempts play no part |
| LeaseTheory.AbandonedIsFree | store/store.go:149-151 | a chain whose grants are all a lease's length old is free to every slot, however often others were refused |
| LeaseTheory.StatusNamesTheHolder | store/store.go:155-157 | "locked by s" exactly when every slot but s would be refused, "free" exactly when none would |
| LeaseTheory.StaleEntriesAreInvisible | store/memory.go:154-192 | the map that keeps stale entries shows, at any time, what a lease that vanishes when it expires shows |
| LeaseTheory.AnswersLikeTheIdeal | store/memory.go:154-192 | every acquire and status query is answered as that ideal lease answers it |
| LeaseTheory.ReleaseSparesOthers | store/store.go:152-154 | a release ends its own slot's hold and touches no other |
| Conducting.CheckBinding | orchestrator/binding.go:22-46 | accepted are exactly the eight listed pairs of login method and flow; an unknown method drives nothing |
| Conducting.PickReady | orchestrator/orchestrator.go:926-937 | the scan returns the id of the document at the first index with a download URL; with none such, of the first document; with no documents, none |
| Choreography.FirstReadyIsFirst | orchestrator/orchestrator.go:926-931 | a ready document with no ready one before it is the one the pass takes |
| Choreography.NoneReady | orchestrator/orchestrator.go:932-936 | with none ready the pass takes the first document, or none if there is none |
| Choreography.EveryReplyIsProgress | orchestrator/orchestrator.go:575-580 | every operation ends: each reply brings it strictly closer, retries included |
| Conducting.Conductor.Begin | orchestrator/orchestrator.go:232-421 | every call of Begin, its order and arguments, the deferred release and the result, for every reply and interference; field by field, whatever it was answered |
| Conducting.Conductor.ResolveDocument | orchestrator/orchestrator.go:253-272 | which document is signed; no fallback when the head cannot be resolved |
| Conducting.Conductor.BeginOn | orchestrator/orchestrator.go:274-421 | Begin from the metadata on: format, lock, prepare, save, deferred release |
| Conducting.Conductor.Lock | orchestrator/orchestrator.go:302-311 | PAdES on an envelope acquires, a refusal ends it; nothing else touches the lock |
| Conducting.Conductor.PrepareJob | orchestrator/orchestrator.go:330-381 | a PDF is sent as the bytes just fetched, a container as its data objects position by position with no hash of its own, anything else as its hash, under the metadata's name and type |
| Conducting.Conductor.PrepareAndSave | orchestrator/orchestrator.go:330-408 | prepare, then save, and which failure leaves the release owing |
| Conducting.Conductor.Reconcile | orchestrator/orchestrator.go:473-521 | every call and result of a poll, its terminal check and keep-alive; field by field, whatever it was answered |
| Conducting.Gateway.Exchange | orchestrator/orchestrator.go:140-147 | a call made on the heap store and the collaborators has the effect and the reply of the call on values, with others acting first and replies getting lost |
| Conducting.Conductor.Finalize | orchestrator/orchestrator.go:526-659 | the whole finalizing pass, from the choice of the document by its index on; field by field, whatever it was answered |
| Conducting.Conductor.StorePdfArtifact | orchestrator/orchestrator.go:539-562 | PAdES: one store, no second try |
| Conducting.Conductor.MergeContainer | orchestrator/orchestrator.go:563-593 | XAdES: the retry loop makes the merges the choreography prescribes |
| Conducting.Conductor.Record | orchestrator/orchestrator.go:597-658 | record, then mark, then release, then notify, then validate |
| Conducting.Conductor.NotifySlotSigned | orchestrator/orchestrator.go:671-689 | the notification loop stops at the first success or after two tries |
| Conducting.Conductor.FinishUp | orchestrator/orchestrator.go:634-658 | notify, then validate; neither failure changes the answer but for the validation |
| Conducting.Conductor.AskForAnswer | orchestrator/orchestrator.go:857-871 | fetch, validate, normalize; the first failure ends it |
| Conducting.Conductor.RunValidation | orchestrator/orchestrator.go:856-899 | fetch, validate, normalize, store the report, link it; the first failure ends it |
| Conducting.Conductor.Validate | orchestrator/orchestrator.go:695-721 | on-demand validation, for the job's owner only; a stranger gets two reads and ErrForbidden, an unsigned record ErrProviderState |
| Conducting.Conductor.Abandon | orchestrator/orchestrator.go:801-814 | read, check the owner, release; field by field |
| Conducting.Conductor.SubmitClientSignature | orchestrator/orchestrator.go:904-922 | exactly the signatures given are handed over, for the owner only; the provider's state is noted and returned |
| Conducting.Conductor.WaitChainFree | orchestrator/orchestrator.go:820-839 | the loop does to the store, the clock and the trace, and answers, what the waiting function says, for every environment; it fails exactly when its last check was not answered or it was cut short before the time was up |
| Waits.WaitOutcome | orchestrator/orchestrator.go:820-839 | at most max(wait, 0) + 1 checks unless the duration wraps; free exactly when the last check found the chain free; not free without error exactly when the last check found it locked and the clock read after it was at or past the deadline |
| Waits.WaitEnds | orchestrator/orchestrator.go:820-839 | when there is a failure and which: exactly when the last check was not answered, with its reason, or the sleep after a locked check was cancelled before the deadline was seen; the time of every check |
| Waits.OneCheckExactly | orchestrator/orchestrator.go:821-832 | at most one check in every environment if and only if the 64-bit duration is not positive |
| Waits.BoundHoldsExactly | orchestrator/orchestrator.go:821-832 | the bound max(wait, 0) + 1 holds in every environment if and only if the wait is positive or its 64-bit duration is not |
| Waits.NegativeWaitLooksTwice | orchestrator/orchestrator.go:821 | a concrete negative wait that checks twice |
| Waits.DurationIsExact | orchestrator/orchestrator.go:821 | the 64-bit wait is exact up to about 292 years either way and never longer than asked above |
| Waits.VeryNegativeWaitsWrap | orchestrator/orchestrator.go:821 | below that it can wrap to a long wait |
| Layers.EveryOperationIsAMethodRun | orchestrator/orchestrator.go:465-473 | an operation that returns in any interleaved run returns what its method returns when run alone over the turns it saw, and leaves the same store |
| Layers.ToldInTheCrowd | orchestrator/orchestrator.go:465-473 | what an operation says and hears in any interleaved run until it returns is one of its runs, so it tells its story |
| Layers.OneTurn | store/memory.go:77-79 | one call in the crowd is one call alone: same effect, same reply |
| Telling.DriveRuns | orchestrator/orchestrator.go:140-147 | whatever happens around it, what an operation adds to the trace and returns is one of its runs |
| Telling.BeginTold | orchestrator/orchestrator.go:232-421 | Begin's runs are exactly those in which each call, argument, error and field of the result follows from the replies before it as its story says; a failure under the lock has the release as its last call |
| Telling.PollTold | orchestrator/orchestrator.go:473-521 | a poll's runs are exactly those of its story: read, owner, terminal check, provider, note, then by the provider's state the pass, the bare failure, or the relayed context with its keep-alive |
| Telling.FinalizeTold | orchestrator/orchestrator.go:526-659 | a pass's runs are exactly those of its story: the document picked from the list alone, download, store or merge, record, mark, release, notification, validation, each with its arguments, and the fields of the answer |
| Telling.MergeTold | orchestrator/orchestrator.go:575-593 | from any number of tries left: the same merge again after each 409, the record after the first accepted one, ErrChainAdvanced when none is left, any other failure as it is |
| Telling.ValidationTold | orchestrator/orchestrator.go:856-899 | a validation's runs are exactly five calls, cut short by the first failure: the report stored has the answer's fields, the link has its id, pass flag and level; a failure is the caller's error on demand and nothing at signing |
| Telling.ValidateTold | orchestrator/orchestrator.go:695-721 | its runs are exactly those in which the record and then its job are read, strangers and records without a document are turned away, and the owner's document is validated |
| Telling.AbandonTold | orchestrator/orchestrator.go:801-814 | its runs are exactly those in which the job is read, strangers are turned away, and PAdES on an envelope is released |
| Telling.SubmitTold | orchestrator/orchestrator.go:904-922 | its runs are exactly those in which the job is read, strangers are turned away, the given signatures are submitted, and the provider's state is noted and returned |
| Answers.BeginPrepares | orchestrator/orchestrator.go:330-381 | whatever is answered, each prepare is of the document whose metadata was read, under its name and type: a container as the data objects listed just before, position by position, with no hash; a PDF as exactly the bytes fetched just before; anything else as its hash |
| Answers.FinalizePicks | orchestrator/orchestrator.go:526-562 | a pass first downloads the picked document in the job's form, and everything it downloads, reads the metadata of, stores or merges is about that document; with none picked it asks nothing |
| Answers.FinalizeTakesTheFirstReady | orchestrator/orchestrator.go:926-931 | if i is the first index with a download URL, all of it is about documents[i] |
| Answers.FinalizeFallsBack | orchestrator/orchestrator.go:932-937 | with none ready it is about the first document, and with none at all the answer is ErrProviderState without a call |
| Answers.UnfinishedPollRelays | orchestrator/orchestrator.go:485-520 | a poll whose provider is not ready and whose note is acknowledged answers the provider's state; FAILED is the end of it, anything else relays code, message and deadline, lock or no lock; nothing else is set |
| Answers.ReadingRun | store/memory.go:76-122 | a run that only reads leaves the store as others left it |
| Answers.ValidateRefuses | orchestrator/orchestrator.go:695-712 | a stranger gets exactly the two reads and ErrForbidden, the owner of a record without a document the two reads and ErrProviderState, and the store stays as others left it |
| Answers.ValidateAnswers | orchestrator/orchestrator.go:714-720 | accepted exactly when all seven calls are answered; the document is read on the owner's behalf and the answer is the record read, the normalized answer and the id of the report stored and linked |
| Histories.JobIsItsHistory | store/memory.go:39-88 | over every history of calls, a job read back is what its first save said, in the state of the latest note since, or the state it was saved with, PREPARING if none |
| Histories.SavedOnce | store/memory.go:39-74 | a job id is taken exactly once, and a state is noted exactly of a saved job |
| Histories.RecordIsItsHistory | store/memory.go:91-140 | over every history of calls, a record read back is what its insert said, with link and pass flag of the latest validation linked to it and the level of the latest that gave one |
| Histories.LinkedOnlyIfInserted | store/memory.go:125-140 | a validation is linked exactly to a record that was inserted |
| CallByCall.BeginSignsTheHead | orchestrator/orchestrator.go:253-272 | Begin signs the chain's head, or its root when there is none; an unresolved head ends it before any prepare or save |
| CallByCall.ClientIdIsIgnored | orchestrator/orchestrator.go:245-272 | when the envelope yields a root, Begins that differ only in the client's document id make the same calls and end alike |
| CallByCall.BeginFollowsTheDocument | orchestrator/orchestrator.go:281-397 | a container is signed as XAdES and a PDF as PAdES whatever the hint; the same format goes to the provider and into the job; bytes are fetched for PAdES only; only PAdES on an envelope touches the lock |
| CallByCall.TerminalPollDoesNothing | orchestrator/orchestrator.go:481-483 | a poll of a COMPLETED or FAILED job reads the job and nothing else, and changes nothing |
| CallByCall.StrangersAreTurnedAway | orchestrator/orchestrator.go:478-480 | a poll, abandon or submit by anyone but the owner reads the job and stops |
| CallByCall.MergeLoop | orchestrator/orchestrator.go:575-592 | from any attempt: one merge per refusal and one more, and the first answer that is no refusal decides |
| BestEffort.MergeRetry | orchestrator/orchestrator.go:423-438 | at most four merges, all the same; ErrChainAdvanced if and only if all four were refused |
| Rivals.FourRefusalsNeedFourRivals | orchestrator/orchestrator.go:569-580 | in every run in which each 409 to a merge sees a new signer on the chain since the try before, a chain that ends up with at most four signers, this one included, never ends the pass in ErrChainAdvanced |
| Rivals.RefusalsCostRivals | orchestrator/orchestrator.go:575-580 | every refused try has cost one more other signer on the chain |
| BestEffort.StoredNeverChainAdvanced | orchestrator/orchestrator.go:581-592 | once its artifact is accepted, a pass cannot end in ErrChainAdvanced any more |
| BestEffort.NotifiedAtMostTwice | orchestrator/orchestrator.go:661-680 | one notification when the first is accepted, else two, then validation |
| BestEffort.MarkedIsDone | orchestrator/orchestrator.go:612-658 | after the mark the answer is COMPLETED with this record and document, and no call can touch a job, a lock or another record |
| BestEffort.QuietRunKeeps | orchestrator/orchestrator.go:634-650 | left alone, what follows the mark changes one record's validation and the reports, nothing more |
| BestEffort.TailDecidesNothing | orchestrator/orchestrator.go:634-650 | what follows the mark and its release, while no other client writes to the store, decides nothing durable |
| BestEffort.BestEffortDecidesNothing | orchestrator/orchestrator.go:526-659 | two whole passes with equal answers and equal doings of others up to the mark and its release, and no other writes to the store after that, end with the same jobs, locks, records and status but for the validation |
| BeginLeases.LockedBegin | orchestrator/orchestrator.go:311-319 | from the grant on, unless the slot itself releases the chain meanwhile: success keeps the hold, any failure gives it back with its last call, and there is no second acquire |
| BeginLeases.BeginLeaseOutcome | orchestrator/orchestrator.go:302-319 | whatever calls fail, and unless another attempt of the slot releases the chain meanwhile: granted and succeeded means still holding for at least 300 seconds from the grant; granted and failed means the last call was the release, and the slot holds nothing if it was answered; refused means no further call and a store just as others left it |
| BeginLeases.BeginStartsUnlocked | orchestrator/orchestrator.go:232-241 | every Begin enters without the lock and makes at most nine calls |
| BeginLeases.BeganMeansSaved | orchestrator/orchestrator.go:383-397 | a successful Begin has its job in the store with the owner, slot, flow and login it was begun under, in the format the metadata it read dictates |
| ChainRelease.CompletionFreesTheChain | orchestrator/orchestrator.go:624-632 | a completed PAdES pass releases its chain right after the mark, and if that release was answered its slot holds nothing at the end, unless another attempt of the slot acquires it again |
| ChainRelease.AbandonFreesTheChain | orchestrator/orchestrator.go:796-814 | abandoning succeeds exactly for the owner of the job it read, releases the slot's hold and does nothing else |
| ChainRelease.PendingPollKeepsAlive | orchestrator/orchestrator.go:498-507 | a pending poll renews the lease for 300 seconds from then, and never displaces another slot's live hold |
| Documents.BaseIsCurrent | orchestrator/orchestrator.go:338-352 | the bytes a PDF extends are the current version of the parent's chain whenever the parent is the document the job was prepared for and is current: from how ids move, not from looking into the bytes |
| Steps.AcceptedOnlyOnce | clients/document.go:151-156 | with an echoing provider the compare-and-swap lets a job's PDF in at most once |
| Documents.PdfKeeps | clients/document.go:151-156 | an accepted PDF keeps the system well-formed, and with an echoing provider the chain carries what it carried and the new signature |
| Documents.MergeKeeps | orchestrator/orchestrator.go:569-573 | an accepted merge keeps every signature and adds the job's |
| Documents.RefreshKeeps | clients/document.go:186-190 | archiving in place spoils nothing anybody relies on |
| Steps.StepKeeps | orchestrator/orchestrator.go:140-147 | every step of anybody keeps the invariant of all reachable states |
| Steps.RunKeeps | orchestrator/orchestrator.go:140-147 | and so does every run |
| Guarantees.SignaturesOnlyGrow | orchestrator/orchestrator.go:295-301 | with an echoing provider, however a run goes on, a chain's document keeps every signature it carries |
| EchoWitnesses.EchoIsExactlyWhatIsNeeded | orchestrator/orchestrator.go:527-551 | no run ever takes a signature off a chain if and only if the provider echoes the document ids its jobs were prepared for |
| EchoWitnesses.SignatureLost | orchestrator/orchestrator.go:527-551 | a concrete run without the echo in which a signature is lost |
| EchoWitnesses.LosersAreUnrecordedExactly | orchestrator/orchestrator.go:539-562 | no run records a superseded signing if and only if the provider echoes |
| EchoWitnesses.OneWinnerExactly | orchestrator/orchestrator.go:295-301 | no run records two PAdES signings over the same bytes if and only if the provider echoes |
| EchoWitnesses.PdfIsRecordedOnceExactly | orchestrator/orchestrator.go:621-626 | no run records a PAdES signing twice if and only if the provider echoes |
| EchoWitnesses.LoserRecords | orchestrator/orchestrator.go:539-607 | a concrete run without the echo in which a superseded signing is recorded beside the one that superseded it |
| EchoWitnesses.PdfRecordedTwice | orchestrator/orchestrator.go:470-472 | a concrete run without the echo in which two polls record one PAdES signing |
| Guarantees.AcceptedPdfExtendsItsBase | orchestrator/orchestrator.go:339-352 | with an echoing provider and a compare-and-swap on the parent's id alone, an accepted signed PDF is its base plus one signature, and nothing was signed on the chain in between |
| Guarantees.RecordedMeansAccepted | orchestrator/orchestrator.go:534-607 | every record stands for an accepted store of its own job's artifact, on the chain of the document it names |
| Guarantees.RecordedMeansCarried | orchestrator/orchestrator.go:595-607 | with an echoing provider, a recorded signature is on its chain's current document, then and ever after |
| Guarantees.SupersededIsNeverAccepted | orchestrator/orchestrator.go:551-561 | a PDF whose chain was signed since its base is never accepted later |
| Guarantees.SupersededNeverRecords | orchestrator/orchestrator.go:539-562 | and its job is never recorded, in any continuation |
| Guarantees.RefusedWhenSuperseded | orchestrator/orchestrator.go:551-561 | storing a superseded PDF against the document it was prepared for is refused |
| LostRaces.SupersededPollFails | orchestrator/orchestrator.go:473-562 | in every run, a poll of a superseded signing that returns names no signature and no document; a finalizing pass is rejected, with ErrChainAdvanced if and only if its store was refused with 409 |
| Guarantees.OneWinnerPerBase | orchestrator/orchestrator.go:295-301 | of all PAdES signings over one version at most one is ever recorded |
| Guarantees.PdfRecordedAtMostOnce | orchestrator/orchestrator.go:621-626 | with an echoing provider, a PAdES signing has at most one record in any run, overlapping polls and lost replies included |
| Guarantees.EvidenceIsTruthful | orchestrator/orchestrator.go:597-607 | every record names a job and repeats its envelope, slot, flow, format, login and level of assurance, and that login permits that flow |
| Guarantees.RowsKeepTheirIdentity | store/memory.go:61-74 | of a job only state and time ever change, of a record only its validation |
| Guarantees.PreparesArePermitted | orchestrator/orchestrator.go:237-241 | every prepare in any run is made under a login that permits its flow, in the format the document dictates |
| Guarantees.EveryCallIsGood | orchestrator/orchestrator.go:671-680 | in every reachable state: notifications name a record of a job already marked, with its envelope, slot and document; inserts are of accepted artifacts; downloads, stores and merges match the job's format |
| Invariants.OpMakesGoodCalls | orchestrator/orchestrator.go:534-607 | what an operation knows is enough for the call it makes next |
| Reachable.OpResumes | orchestrator/orchestrator.go:473-521 | what an operation knows after a reply is true, whatever the reply |
| Guarantees.ValidationLinksNeverDangle | orchestrator/orchestrator.go:873-896 | a linked report exists, is about this signature, and the pass flag and level shown are those of the answers linked |
| Guarantees.ValidatedAsSigned | orchestrator/orchestrator.go:845-866 | the artifact is validated under the file name of the format its job was begun in |
| Guarantees.KeepAliveHoldsTheChain | orchestrator/orchestrator.go:498-507 | in every run, a slot whose acquires are less than 300 seconds apart is the only one whose acquires are granted |
| Guarantees.AbandonmentIsBounded | orchestrator/orchestrator.go:50-58 | no entry expires later than 300 seconds after its slot's last acquire; when the holder's slot has made none for 300 seconds the chain is free to all, whatever others attempted |
| Guarantees.FreeExactlyWhenNoGrantStands | orchestrator/orchestrator.go:50-58 | in every run, a chain is free if and only if no standing grant on it is younger than 300 seconds |
| Guarantees.WhoAcquires | orchestrator/orchestrator.go:303-304 | only Begin and a pending poll acquire, only for PAdES on an envelope, only for their own slot |
| Guarantees.LeaseDoesNotMeanCurrent | orchestrator/orchestrator.go:263-304 | in every such state, a stale Begin is granted the lease and goes on to sign the old version |
| Freshness.BeginSignsTheCurrentVersionExactly | orchestrator/orchestrator.go:253-343 | in every run, and whatever becomes of the lease, the bytes a Begin reads are its chain's current version, with every signature it carries, if and only if nobody has signed on the chain since the head was resolved |
| Freshness.CurrentExactlyWhenUnsigned | orchestrator/orchestrator.go:253-272 | in every run, an id that names a chain's current version still does later if and only if nobody has signed on the chain in between |
| PdfWitnesses.StaleBeginGetsTheLease | orchestrator/orchestrator.go:263-304 | a concrete run into such a state: the head resolved, another slot signs and releases, the lease granted |
| PdfWitnesses.LoserAtStore | orchestrator/orchestrator.go:538-561 | the same run goes on to a superseded PDF about to be stored |
| Guarantees.GivingUpReleasesTheSlot | orchestrator/orchestrator.go:311-318 | in every state, the deferred release ends the slot's hold, whichever attempt it belonged to, and no other slot's |
| PdfWitnesses.SecondAttemptLosesTheHold | orchestrator/orchestrator.go:311-318 | a concrete run in which a failed second attempt of a slot lets another slot in while the first attempt is pending and its lease has not run out |
| Counting.EveryRecordIsCounted | orchestrator/orchestrator.go:597-626 | in every run, overlapping polls and late submissions included, a job has exactly as many records as marks, stopped passes and passes in flight account for |
| Counting.StepCounts | orchestrator/orchestrator.go:597-626 | every step that records adds one to either side, and no other step changes either |
| Counting.RecordedAtMostOnceExactly | orchestrator/orchestrator.go:621-626 | in every run, a signing is recorded at most once if and only if no pass records it while a mark, a stopped pass or a pass in flight accounts for it already |
| OnceOnly.RunOnce | orchestrator/orchestrator.go:465-472 | under the stated assumptions every run keeps passes apart, marks at most one per job, and COMPLETED in step with the mark |
| OnceOnly.RecordsAreCounted | orchestrator/orchestrator.go:597-626 | under the stated assumptions the count can be read off the job: one if COMPLETED, one per pass that stopped between record and mark, one if such a pass is under way; so COMPLETED means recorded |
| OnceOnly.CompletedIsAbsorbing | orchestrator/orchestrator.go:70-73 | COMPLETED is for ever and nothing more is recorded |
| OnceOnly.SettledStays | orchestrator/orchestrator.go:481-483 | COMPLETED never changes; FAILED never changes once no earlier pass is at work and as long as no client signature's other state is noted |
| OnceOnly.StateIsLeftExactly | orchestrator/orchestrator.go:489-497 | in any run at all, a step leaves a job's state if and only if it is a poll noting another answer, a pass marking, or a submission noting another state |
| OnceOnly.FailedIsLeftExactly | orchestrator/orchestrator.go:489-497 | so FAILED is left exactly by those |
| OnceOnly.CompletedIsLeftExactly | orchestrator/orchestrator.go:70-73 | and COMPLETED exactly by a poll or a submission noting another state |
| OnceOnly.StateStaysExactly | orchestrator/orchestrator.go:70-73 | a job keeps its state, FAILED or COMPLETED, throughout a run if and only if no step of it is one of those |
| OnceOnly.FailureUndoneByEarlierPoll | orchestrator/orchestrator.go:489-491 | in every state, an earlier poll about to note another answer may, in an orderly run, undo a FAILED job by doing so |
| OnceOnly.LateSubmitReopens | orchestrator/orchestrator.go:913-919 | in every state, a late client signature reopens a terminal job, and the next poll drives it again; on a FAILED job without breaking any assumption |
| OnceOnly.OverlappingPassesRecordTwice | orchestrator/orchestrator.go:470-472 | two passes over one job that both got their merge accepted record it twice |
| Witnesses.Completed | orchestrator/orchestrator.go:597-626 | from the empty system an orderly run leads to a job that is COMPLETED with its one record |
| Witnesses.FailedIsNotAbsorbing | orchestrator/orchestrator.go:489-497 | a concrete orderly run in which a FAILED job becomes pending again |
| Witnesses.FailedCanBeReopened | orchestrator/orchestrator.go:904-922 | a concrete orderly run in which, with nothing in flight, a late client signature turns a FAILED job pending again |
| Witnesses.CompletedCanBeReopened | orchestrator/orchestrator.go:913-919 | a concrete run in which a late client signature turns a COMPLETED job pending again |
| Witnesses.CompletedWithoutRecord | orchestrator/orchestrator.go:70-73 | a concrete run in which a provider that reports COMPLETED leaves a COMPLETED job without a record |
| Witnesses.RecordedTwice | orchestrator/orchestrator.go:470-472 | a concrete run in which two overlapping polls record one signing twice, with neither having stopped |

## Left out

- HTTP routes, scope checks, error-to-status mapping and wire types: framework plumbing.
- The outbound clients: network I/O; what is needed of the services behind them is listed above.
- store/postgres.go: its stored procedures are not part of this model; the in-memory store gives the semantics.
- Report normalization (orchestrator/validation.go): the normalized answer, or the error, is arbitrary.
- Audit, outbox, logging, configuration and start-up: no effect on the protocol.
- ArchiveDocument: only its effect, a chain whose current version is replaced in place; ValidateDocument: stores nothing.
- Signature formats and cryptography: bytes are opaque values that say where they came from.
- The store's mutex: each store method is one atomic step. Clock readings and new ids are parameters of the call.
- Uniqueness of ULIDs is assumed: a new id is not in use.
- Strings that are only ever compared with constants are datatypes with a catch-all case; certificates and the other pass-through fields of Begin are carried as opaque fields.
- Prepare requests and multipart files are single, as Begin only ever sends one document.
- A cancelled request is the end of the script: no later call of that operation is carried out.
- MemoryStore.Memory.AcquireChainLock: a time to live beyond 292 years, which would wrap the 64-bit duration, is not modelled; the conductor only ever asks for 300 seconds.
- Rivals.FourRefusalsNeedFourRivals: that a 409 to a merge is caused by a new signer is a hypothesis on the run; the document service may answer 409 for any reason otherwise, and archiving or a repeated merge of a job that already signed does not count as a new signer.
- Guarantees.SignaturesOnlyGrow: requires a provider that echoes document ids; without that it is false, see EchoWitnesses.EchoIsExactlyWhatIsNeeded.
- BeginLeases.BeginLeaseOutcome: excludes a release by another attempt of the same slot, which does end the hold, see PdfWitnesses.SecondAttemptLosesTheHold.
- ChainRelease.CompletionFreesTheChain: excludes an acquire by another attempt of the same slot, which takes the chain again.
- BestEffort.BestEffortDecidesNothing: no other client writes to the store after the mark and its release; what the pass itself does then is bounded among any others by BestEffort.MarkedIsDone.
- OnceOnly.SettledStays: for FAILED, requires that no earlier pass is at work and no client signature's other state is noted; neither can be dropped, see Witnesses.FailedIsNotAbsorbing and Witnesses.FailedCanBeReopened.
