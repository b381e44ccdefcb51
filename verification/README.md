# Verified model of the gosh-lan-transfer engine

gosh-lan-transfer moves files between machines of one network. A sender describes a
transfer, the receiver's user approves it, and the files are uploaded one by one. The
second protocol version (v2) promises more than the first: transfers resume at a byte
offset, survive restarts of either side, and a file only appears under its final name
after its SHA-256 digest has been checked. This project models the code that carries
those promises and proves them.

## What is modelled

The **durable receiver** is a step system (`Durable.dfy`). A world holds the disk (names,
inodes shared by hard links, how much of each inode is synced, which names a crash may
drop), the journal of session records, the sessions in memory, and two counters nothing
reads back: completion events and created links. A step is what the code does between two
await points, together with the I/O outcome it meets: journal writes that fail with or
without having landed, torn appends, broken bodies, removals that fail, an upload whose
request is dropped at any point, the cancellation token firing at any moment, and a crash
that cuts unsynced tails, drops unsynced names and reloads memory from the journal. Other
programs, v1 uploads among them, may save files at any time and sync as little of them as
they like. Sessions interleave freely. `DurableInvariant.dfy` states what every step
keeps, `DurableSteps.dfy` and `DurableRuns.dfy` prove it step by step, and the theorem
files draw the promises from it:

| file | about |
|---|---|
| `DurableSafety.dfy` | destinations never change |
| `DurablePublication.dfy` | verified-only publication, and exactly what a crash can undo of it |
| `DurableLifecycle.dfy` | decisions, cancellation and completion over runs; load never fails |
| `DurableLinks.dfy` | write-ahead intent: how many destination names a file can get |
| `DurableReceipts.dfy` | which acknowledged facts survive a crash |
| `DurableResume.dfy`, `DurableOffsets.dfy` | prefixes of the source; offsets never go back |
| `DurableProgress.dfy` | progress arithmetic |
| `DurableCapacity.dfy` | the limit on retained sessions |
| `DurableSnapshot.dfy`, `Resumable.dfy` | what is reported and what a sender accepts |
| `DurableAdoption.dfy` | adopting files that are there already: sharing, retries, the run that loses one |
| `DurableOwners.dfy` | whose a session is and who decided on it, over runs and of the object |
| `DurableUploads.dfy` | what an upload request deserves as its reply, said of the request, the disk and the I/O alone |
| `DurableMoves.dfy`, `DurableWitness.dfy` | building concrete runs from the initial state, for what is not promised |

`DurableStore.dfy` is the same receiver as the object the code has: a class whose methods
update its fields in place, loop over body chunks and candidate names, and log every step
they take in ghost fields. Its validity says that the log is a run of the step system
ending in the current fields, so every theorem about runs is a theorem about the object
(`EndToEnd.StoreIsSafe`, `EndToEnd.StoreKeepsDestinations`).

The **sender** (`Sender.dfy`) is a class with the loops of `send_plan`: request retries,
approval polling, the per-file resume loop and the final check. Its peer is an arbitrary
run of the receiver together with a script saying what becomes of each request. Its contracts
say what is sent and every reason for which it may give up.
`EndToEnd.dfy` joins both sides: success means that every file of the plan has arrived,
unless a crash has cut one that was adopted unsynced.

The **v1 receiver** keeps sets of ids and a byte counter with rollbacks. `Legacy.dfy` says
what each action does to one id and proves theorems about all sequences of actions;
`LegacyServer.dfy` is the object, whose methods update the maps and sets in place and log
their actions in a ghost field; `LegacyRuns.dfy` carries the theorems over to every server
object and gives two runs of its methods that show what the counter does not survive.

`LegacyClient.dfy` models the v1 retry loops, `Paths.dfy` name sanitising, placement and
collision numbering, with what of a name is refused, and `PathNames.dfy` what of it is
kept, `Manifests.dfy` the registration envelope, `Throttle.dfy` the bandwidth limiter over
exact time, and `History.dfy` the bounded transfer history.

SHA-256 (FIPS 180-4) is an uninterpreted constant function; injectivity is a hypothesis of
the one conclusion that needs it. Canonical UUID text (RFC 9562, section 4) is a predicate
on 36 characters.

## Where the code is weaker than its description

Each of these is a lemma with a concrete or fully general failing case, next to the exact
condition under which the code does what is promised.

- Published files are not always synced, as `docs/SECURE_TRANSFERS.md` says they are. An upload
  whose target already holds the declared content adopts that file, syncs only its directory
  and removes its own synced copy. If another program, or a v1 upload, saved the file without
  syncing it, a crash leaves the published name with too few bytes, for good
  (`DurableAdoption.UnsyncedAdoptionIsLost`, a run of 12 steps). An entry keeps its content in
  every crash if and only if its file was not left unsynced since the last crash
  (`DurablePublication.SurvivesEveryCrashIff`), and what an upload linked itself always is
  synced (`DurablePublication.OwnLinkIsNeverCut`).
- A repeated cancel, and an upload of a file that is already published, are answered from
  memory. After failed journal writes such an answer is lost by a crash
  (`DurableReceipts.FailedCancelIsUndone`, `DurableWitness.FailedCommitIsUndone`). It is
  kept if and only if some journal write of the session since then has landed
  (`DurableReceipts.SurvivesIffSomeWriteLands`, `DurableReceipts.MemoryReplyIsDurableIff`).
- An unreadable target counts as a foreign file, so a retry after a crash and before the
  commit may create a second destination (`DurableWitness.UnreadableTargetDuplicates`, a run
  of 15 steps). A file has two names if and only if a link attempt could not read back a name
  its own upload had created and a later one found another name free
  (`DurableLinks.SecondNameIff`). What `docs/SECURE_TRANSFERS.md` promises, that no retry after
  completion creates another destination, holds: `DurableAdoption.NoLinkAfterPublication`.
- Two file ids of the same name and content can end up with one destination
  (`DurableAdoption.SharedDestination`), and do so if and only if an upload of one adopted the
  name while the other used it (`DurableAdoption.SharedIff`).
- The documented limit of 1,024 sessions can be exceeded by registrations that are reported
  as failed although their journal write landed (`DurableCapacity.LimitExceededByRun`). It
  holds over a run if and only if no restart finds more than 1,024 journal files
  (`DurableCapacity.LimitHoldsIff`), and the files beyond the sessions in memory are exactly
  those registrations (`DurableCapacity.OrphansAreGhosts`).
- A transfer id that was forgotten and registered again with another manifest can be
  reported complete to the first sender (`EndToEnd.ForgottenPlanIsLost`). A plan's file
  that no crash has cut has arrived if and only if the manifest held by the reported session
  declares it (`EndToEnd.ArrivedIff`).
- The v1 rollback saturates if and only if a cancellation took counted bytes of the running
  upload away and a further chunk was counted before the handler saw it
  (`Legacy.SaturatesIff`, `LegacyRuns.SaturatingRollback`).
- A v1 upload whose request is dropped is not rolled back, so the next completion reports
  more than the total (`LegacyRuns.InflatedCompletion`). The books of a live transfer balance
  if and only if nothing has leaked (`Legacy.BooksBalance`), and something has if and only if
  an upload was dropped with counted bytes (`Legacy.LeakedIff`).
- The comment in `src/throttle.rs` speaks of an idle stream; the code abandons a window two
  seconds after it began. The model follows the code, and the bounds hold either way.
- Sanitising a name again may change it: trailing dots are taken off last, so a stored name can
  end in a white space other than the plain space, which a second pass removes
  (`PathNames.NotIdempotent`). It changes nothing if and only if the stored name does not end in
  white space, or consists of nothing but dots and white space and comes back as the fallback
  (`PathNames.IdempotentIff`).
- The two numbering rules for colliding names differ on names ending in a dot; sanitised
  names never do: `Paths.NumberingRulesAgree`.

## Model

| member | source | states |
|---|---|---|
| DurableRuns.StepKeepsInv | src/durable.rs:116-720 | every step, whatever its I/O outcome, and a crash with reload at any await point keep the invariant of disk, journal and memory |
| DurableRuns.RunKeepsInv | src/durable.rs:116-720 | the invariant holds in every state of every run that starts with other programs' files only |
| DurablePublication.PublicationIsVerified | src/durable.rs:594-698 | in every reachable state the published entries of a record, in memory and in the journal, all name files of the declared size and digest under names no crash can drop, if and only if no crash has cut one of those files since it was published |
| DurablePublication.EntryFate | src/durable.rs:653-698 | entry by entry: the declared content until a crash cuts the file, too few bytes for good after that |
| DurablePublication.LooseIff | src/durable.rs:653-669 | over every run a destination can lose bytes in a crash if and only if another program saved it without syncing all of it and no crash has happened since |
| DurablePublication.SurvivesEveryCrashIff | src/durable.rs:653-700 | a journalled entry with its declared content keeps it in every possible crash if and only if its file is not such a file |
| DurablePublication.OwnLinkIsNeverCut | src/durable.rs:594-650 | no crash ever cuts a published file whose name the upload linked itself |
| DurablePublication.BytesStayIff | src/durable.rs:594-698 | a destination whose name is durable reads the same later on if and only if no crash has cut it in between |
| DurableAdoption.UnsyncedAdoptionIsLost | src/durable.rs:653-700 | for any valid manifest, a run from the initial state in which an adopted, unsynced file is published and journalled, the synced partial file is removed, and a crash takes the content |
| DurableAdoption.NoLinkAfterPublication | src/durable.rs:522-524 | once a file is published and journalled no retry creates another destination, over any later crashes and failures, until the session is forgotten |
| DurableAdoption.SharedIff | src/durable.rs:655-668 | two file ids use one destination if and only if a link attempt of one adopted the name while the other used it |
| DurableAdoption.SharedContent | src/durable.rs:655-668 | files that share a destination have equal size and digest unless a crash has cut it |
| DurableAdoption.SharedDestination | src/durable.rs:655-668 | for any valid manifest with two ids of one name and content, a run from the initial state that publishes both under one name |
| DurableSafety.DestinationsNeverChange | src/durable.rs:534-582 | once a destination is durable, its name and all its bytes, no accepted write, cancellation, publication or crash changes a byte read through it, although partial files share its inode |
| DurableSafety.StepKeepsDestinations | src/durable.rs:598-617 | one step seen from a destination: same contents, but that a crash may take its name while its directory was never synced, and bytes that were never synced |
| DurableInvariant.AppendKeeps | src/durable.rs:570-578 | appending to a partial file leaves all other names alone: a non-empty append only fits while no destination shares the inode |
| Disks.RenderIsInjective | src/durable.rs:285-287 | partial-file names are injective in (session, file) and never meet a destination name |
| DurableLifecycle.JournalMovesForward | src/durable.rs:203-271 | while a session is not forgotten its journal entry only moves forward, through failed writes and crashes, given that every write ends before its session's lock is released: the decision leaves Pending once, cancelled and complete are permanent, published entries stay, nothing is published after cancellation |
| DurableLifecycle.MemoryMovesForward | src/durable.rs:203-271 | the same for the record in memory between crashes |
| DurableLifecycle.LifecycleInvariant | src/durable.rs:683-718 | complete holds exactly when every manifest file is published, never together with cancelled; the completion event has fired at most once since registration, restarts included, and only when completion is journalled |
| DurableLifecycle.LoadSucceeds | src/durable.rs:116-171 | every journal file any run can leave behind passes all checks of load |
| Manifests.CountDecidesAll | src/durable.rs:694-694 | comparing the number of published entries with the number of files decides completeness, because ids are distinct |
| DurableLinks.AtMostOneNewName | src/durable.rs:630-698 | unless a link attempt cannot read back a name its own upload created, each (session, file) has created at most one live destination name over any mix of crashes, failed syncs, retries and unreadable foreign files |
| DurableLinks.LinkFate | src/durable.rs:630-698 | in every reachable state a created name is the recorded target or the published entry, or has been met unreadable since it was created |
| DurableLinks.SecondNameIff | src/durable.rs:653-669 | over every run: two live names of one file exist if and only if a link attempt met the first unreadable, a later one linked a free name, and no crash or forget took either away |
| DurableWitness.UnreadableTargetDuplicates | src/durable.rs:655-668 | for any valid manifest, a run from the initial state (register, upload, link, crash, resume, unreadable target, next name) that ends with two names of one file |
| DurableReceipts.AcknowledgedStateSurvives | src/durable.rs:278-284 | with failed writes as fail-stop (a failed journal write is allowed when a crash follows at once), a crash outside a pending commit gives back decision, cancelled, complete and published of every session |
| DurableReceipts.AcknowledgedForever | src/durable.rs:203-271 | what a register, accept, reject, cancel or commit acknowledged stays in journal and memory through any later failed writes, dropped requests, crashes and reloads until the session is forgotten, given that every write ends before its session's lock is released |
| DurableReceipts.StoredMeansDurable | src/durable.rs:203-271 | ... and a crash right after it gives back exactly the acknowledged record |
| DurableReceipts.JournalSaysIff | src/durable.rs:278-284 | the journal says that a session is cancelled, complete or has published a file if and only if a write of the session that landed, reported as failed or not, was made while memory said so |
| DurableReceipts.MemoryReplyIsDurableIff | src/durable.rs:247-249 | hence an answer given from memory survives a crash if and only if such a write lies somewhere in the run |
| DurableReceipts.SurvivesIffSomeWriteLands | src/durable.rs:518-524 | between two crashes: what step c made true in memory survives the next crash if and only if a journal write of the session at or after c has landed |
| DurableReceipts.FailedCancelIsUndone | src/durable.rs:247-259 | for any valid manifest, a run from the initial state: a cancel whose write fails is answered Ok the next time and undone by a crash |
| DurableWitness.FailedCommitIsUndone | src/durable.rs:522-524 | for any valid manifest, a run from the initial state: an upload whose commit write fails is answered Ok on retry and taken back by a crash |
| DurableResume.PartsArePrefixes | src/durable.rs:529-578 | with a sender that sends, in each upload, source bytes from the offset its own request names, however stale the report that offset was taken from, every partial file is a prefix of its source in every reachable state |
| DurableResume.HonestUploadsAreNeverDiscarded | src/durable.rs:572-614 | for such a sender the payload-too-large and checksum-mismatch branches are unreachable |
| DurableResume.RunServesLast | src/durable.rs:529-547 | by the offset check, an upload under way is for the file of its request and stands at the requested offset plus what has arrived |
| EndToEnd.SenderIsHonest | src/resumable.rs:531-600 | the sending engine is such a sender, whatever part of its bodies arrives |
| EndToEnd.SenderResumesSafely | src/resumable.rs:531-600 | so in every run fed by it all partial files are prefixes and no upload is answered with a mismatch or as too large |
| DurableOffsets.OffsetsNeverDecrease | src/durable.rs:288-314 | from an undisturbed state, such as after registration, and as long as nobody cancels or forgets the session from then on, the synced offset of every file survives every crash, and the reported offset never decreases unless a crash takes unsynced bytes |
| DurableOffsets.RunStaysUndisturbed | src/durable.rs:683-698 | a file published in memory but not in the journal still has its full, synced partial file |
| DurableProgress.ProgressIsOffsetSum | src/durable.rs:543-592 | every progress value equals the sum of the per-file offsets and is at most the announced total; the size check does not underflow; below 2^63 the intermediate sum fits u64, and beyond it wrap-around cancels |
| DurableProgress.ProgressNeverDecreases | src/durable.rs:581-592 | progress never goes back within one upload, whatever other sessions do |
| DurableProgress.PublicationKeepsOffsets | src/durable.rs:630-698 | verifying, choosing, linking, syncing and committing move no offset, whatever other sessions do meanwhile |
| DurableProgress.FinalEventIsOffsetSum | src/durable.rs:701-707 | the value of the last event, computed at the end of the body, is still the sum of the offsets when the event goes out, at most the total, and exactly the total with the last file |
| DurableProgress.CompleteMeansTotal | src/durable.rs:701-716 | the offsets add up to the announced total exactly when every file is wholly there, as in a complete session |
| DurableCapacity.LimitHoldsIff | src/durable.rs:375-382 | every state of a run holds at most 1024 sessions if and only if no restart in it finds more than 1024 journal files |
| DurableCapacity.OrphansAreGhosts | src/durable.rs:429-437 | a journal file has no session in memory if and only if its last registration was reported failed but landed, and neither a restart nor another registration has taken it up since |
| DurableCapacity.JournalCount | src/durable.rs:429-437 | in every reachable state the journal holds one file for each session and each such orphan |
| DurableCapacity.AtMostMaxSessions | src/durable.rs:375-382 | so without such a registration at most 1024 sessions are retained over any run |
| DurableCapacity.LimitExceededByRun | src/durable.rs:429-437 | for any valid manifest, a run from the initial state under 1025 identifiers that ends with 1025 sessions |
| DurableSnapshot.SnapshotIsAccepted | src/durable.rs:288-327 | every report of a reachable receiver passes the sender's validation and no partial file exceeds its declared size |
| DurableSnapshot.Checkpoints | src/durable.rs:288-314 | the loop succeeds exactly when no offset exceeds its file's size and then lists every file's offset and completeness in order |
| DurableSnapshot.PointSumIsOffsetSum | src/durable.rs:543-543 | the sum over the checkpoints is the sum of the offsets |
| DurableSnapshot.TokenNeverChanges | src/durable.rs:315-327 | a handed-out token is the one chosen at registration for as long as the session lives |
| DurableStores.DurableStore.Register | src/durable.rs:347-445 | replies and new state of the register handler, by case; a new session is in memory only once its record is journalled, and field by field belongs to the registrant, shows its address and announcement, carries the token, is approved only if the sender is trusted, and has nothing published, cancelled or complete; a repeat gets the session's report or a conflict |
| DurableOwners.JournalIsRegistrants | src/durable.rs:383-437 | over every run the journalled record of a session is the one its last registration announced: owner, address, manifest and token |
| DurableOwners.SessionIsRegistrants | src/durable.rs:383-437 | over every run a retained session's owner, address, manifest and token are those of the registration step that created it, with no forget in between |
| DurableOwners.DecisionIsGiven | src/durable.rs:203-236 | over every run a session is accepted or rejected, in memory or in the journal, only because the user decided so or its registrant was trusted, since it was last forgotten |
| DurableOwners.StoreAnswersRegistrant | src/durable.rs:446-464 | whatever methods have been called, the owner that Status answers is the one that registered the session |
| DurableOwners.RegisterAndAsk | src/durable.rs:347-464 | after a successful registration the status is given to its owner alone, and a repeat succeeds if and only if owner and manifest are the same |
| DurableStores.DurableStore.Status | src/durable.rs:446-464 | only the owner gets a report, and it passes the sender's validation |
| DurableStores.DurableStore.AcceptTransfer | src/durable.rs:203-218 | the error of each refused accept; otherwise the new state and the token if the write succeeded |
| DurableStores.DurableStore.RejectTransfer | src/durable.rs:219-236 | only a pending session is rejected, in memory even when the write fails |
| DurableStores.DurableStore.CancelTransfer | src/durable.rs:237-271 | fires the token first, answers Ok from memory when cancelled already, never cancels a finished or complete session, and removes the partial files only after the write |
| DurableStores.DurableStore.ForgetTransfer | src/durable.rs:172-187 | only a terminal session is forgotten, and then nothing of it is left |
| DurableStores.DurableStore.CrashAndLoad | src/durable.rs:116-171 | memory becomes exactly what the journal says, with the cancellation token fired and the completion flag set as recorded and no upload running, and every record passes the checks of load |
| DurableStores.DurableStore.ReceiveBody | src/durable.rs:548-603 | the body loop: the reply is the one the events deserve; either the whole file is in its partial file or the reply says why not; when the sender is told to resume, exactly the chunks that arrived have been kept |
| DurableStores.DurableStore.CheckReceived | src/durable.rs:604-629 | the reply by case: 422 exactly when size or digest differ, then 410 when cancelled, 400 for a reserved destination, 500 when its directory cannot be made; nothing is published and no destination changes |
| DurableStores.DurableStore.PublishFile | src/durable.rs:630-692 | the names tried are the recorded target, if any, at the first turn and the k-th numbered name at every other turn k below 1000; the first attempt that fails, or whose name is free or readably holds the file, ends the search: with an error, or with the file published under exactly that name; 409 if and only if no attempt ends it |
| DurableStores.DurableStore.CommitFile | src/durable.rs:694-720 | Ok only when the journal holds the record in memory, and the completion flag then agrees with it |
| DurableStores.DurableStore.Upload | src/durable.rs:490-720 | early refusals change nothing; when the owner of an approved, live session resumes an unpublished file with its token at the end of its partial file, reply and published entries are exactly those deserved, and if no I/O fails and nothing is cancelled, 200 if and only if the body completes the file with the declared digest, its place is not reserved and one of a thousand names is free or holds it, and 409 if and only if all are taken; Ok after a body means published in memory and in the journal, the early Ok speaks for memory alone; other sessions are untouched |
| DurableUploads.UploadSucceedsIff | src/durable.rs:548-720 | for every body: the untroubled upload is answered 200 and published under the first of the thousand names that is free or holds the file, exactly when there is one and the body completes the file; 409 exactly when all are taken by other content |
| DurableUploads.SmoothPlacement | src/durable.rs:630-692 | without failing I/O the file is published if and only if some name is free or holds it, under the first such name, and otherwise the answer is 409 |
| DurableUploads.BodyPassesIff | src/durable.rs:548-603 | a body is let through if and only if it is nothing but chunks written whole, exactly as long together as what the file lacks, and the token has not fired |
| DurableUploads.BodyRefusals | src/durable.rs:548-603 | why a body is refused: the token fired, more came than fits, a write was torn, or it ended before the file was complete |
| DurableUploads.RepliesTell | src/durable.rs:548-720 | an upload answered 200 has published exactly its file, one answered otherwise nothing, unless only the journal write failed |
| DurableUploads.NamesTried | src/durable.rs:630-652 | for a place asked for in ordinary names, the first name tried is that place itself and the k-th differs from it by the bracketed number before the extension alone |
| Resumable.CheckStatus | src/resumable.rs:450-466 | the sender's loop accepts exactly the well-formed reports |
| Resumable.StatusIsBijection | src/resumable.rs:450-466 | for distinct plan ids a report is accepted if and only if it has one point per file and covers every file within its size (pigeonhole) |
| Resumable.CheckpointAlwaysFound | src/resumable.rs:531-545 | after validation the missing-checkpoint and invalid-offset branches are dead |
| Resumable.RetryDelayExact | src/resumable.rs:433-438 | the saturating delay equals min(60000, d * 2^attempt) over the integers |
| Resumable.RetryDelayMonotone | src/resumable.rs:433-438 | later attempts never wait less |
| Manifests.Validate | src/resumable.rs:118-163 | the validation loop accepts exactly the manifests with canonical, distinct ids, well-formed digests for precisely those ids, and a matching total that fits u64 |
| Manifests.PlanManifestIsValid | src/resumable.rs:96-116 | a plan's envelope carries its id, sender name, files in order and total, passes validation exactly when the plan is sound, and then binds every file to the digest taken at preparation |
| Manifests.CheckedTotalIsTotal | src/resumable.rs:97-101 | the checked fold fails exactly when the mathematical sum leaves u64 |
| Manifests.UuidIsGroups | src/resumable.rs:122-127 | hexadecimal groups joined by hyphens pass as an id if and only if they have 8, 4, 4, 4 and 12 lower-case digits |
| Sender.Engine.RetryRequest | src/resumable.rs:391-425 | at most max_retries + 1 attempts, all but the last met by transient replies; success exactly when the last one is delivered, otherwise the error is that of the last reply, which is transient only if no retry was left; the fall-through is dead |
| Sender.Engine.Checkpoint | src/resumable.rs:440-468 | an accepted checkpoint is the receiver's own report at that turn and is well-formed; it fails only if the request failed or the report is not well-formed |
| Sender.Engine.AwaitApproval | src/resumable.rs:497-516 | Ok is the receiver's approving report of the last turn; it fails only for a failed request, a cancelled, rejected or unknown session, or as many undecided reports as there is patience |
| Sender.Engine.Attempt | src/resumable.rs:526-625 | one attempt ends without an upload exactly if no report is had, or a cancelled one, or the file is there; otherwise it uploads the source bytes from the offset just reported and does what the reply says; the progress counter shows the reported offsets and what has left since, within the total |
| Sender.Engine.SendFile | src/resumable.rs:525-627 | Ok only if the receiver reported the file complete or answered an upload of it with success during the call; it gives up only for a missing or cancelled report, a definitive refusal, or exactly max_retries + 1 failed uploads; the fall-through after the loop is dead |
| Sender.Engine.SendFiles | src/resumable.rs:525-627 | Ok means that every file of the plan was sent, or reported complete, during the call; otherwise some file was given up as above after all before it were sent |
| Sender.Engine.SendPlan | src/resumable.rs:470-637 | success only after the receiver held this very manifest, approved it, got every file or reported them all there, and later reported the session complete, with sources unchanged and progress at the total; failure only for an unsound plan, a changed source, a failed request, a missing approval, a file given up, or a final report that is not complete after every file was sent; every upload carries the approving report's token |
| Sender.ServedPlanIsSent | src/resumable.rs:470-637 | a sound plan whose every request is served by a receiver that has approved it fails only if all its files have been sent and the last report is still not one of a complete session |
| Sender.PointSumBounded | src/resumable.rs:540-541 | the offsets of an accepted report never add up to more than the plan's total |
| Sender.RestFits | src/resumable.rs:541-599 | a report's sum plus the rest of one file stays within the total, so the sender's counter does |
| EndToEnd.DeliveredMeansArrived | src/resumable.rs:470-637 | when send_plan succeeds and the session was not forgotten meanwhile, a plan file is published with its size and digest, after any disconnects, crashes, reloads, conflicts and retries, if and only if no crash has cut an adopted file under it; without digest collisions its bytes are the source's, and stay so if and only if no later crash cuts them, which none does unless another program left them unsynced |
| EndToEnd.SendAndArrive | src/resumable.rs:470-637 | running the sending engine against any run of the receiver: on success each plan file arrived, unless cut by a crash, exactly if the session met by the final report declares it, and each did exactly if not cut unless the session was forgotten |
| EndToEnd.ArrivedIff | src/durable.rs:694-720 | a complete session has received a plan's file that no crash has cut if and only if its manifest declares the file's id with that size and digest, and a declared file if and only if no crash has cut it |
| EndToEnd.ForgottenPlanIsLost | src/durable.rs:172-187 | a run from the initial state in which an id is registered, rejected, forgotten, registered again and completed: the report passes the first sender's validation and its file has not arrived |
| EndToEnd.CompleteMeansArrived | src/durable.rs:694-720 | a complete session holding the plan's manifest has received a plan file if and only if no crash has cut it since |
| EndToEnd.StoreIsSafe | src/durable.rs:594-720 | whatever methods were called and whatever crashed, the store object's published files are all verified, in memory and in its journal, if and only if no crash has cut one of them |
| EndToEnd.StoreKeepsDestinations | src/durable.rs:534-582 | a durable destination survives any sequence of method calls byte for byte |
| Legacy.BooksBalance | src/server.rs:1084-1145 | for a live, incomplete transfer the counter equals the received files, the bytes in flight and what dropped uploads leaked; it balances if and only if nothing leaked, and then stays within the total |
| Legacy.LeakedIff | src/server.rs:1070-1099 | over every sequence of actions: a live transfer's counter is inflated if and only if, since its admission, a request was dropped after bytes of it had been counted |
| LegacyRuns.InflatedCompletion | src/server.rs:1070-1140 | a run of the server's methods in which a dropped request makes the retry complete with three bytes reported of two |
| LegacyRuns.SetsAgree | src/server.rs:47-106 | in every valid state approved and completed ids are pending, pending, rejected and cancelled ids are disjoint and at most 1024 together, and receipts name files of their transfer |
| Legacy.ActionGood | src/server.rs:212-1340 | registration, decisions, expiry, chunks, rollbacks, dropped requests and finished files each keep the sets and the counter of their id in order |
| Legacy.RollbackGood | src/server.rs:383-389 | for a transfer not cancelled the saturating rollback does not saturate and the counter is back where it was before the upload |
| Legacy.SaturatesIff | src/server.rs:383-389 | over every sequence of actions: the subtraction of an upload under way would saturate if and only if a cancellation came after bytes of it were counted and another chunk was counted afterwards |
| LegacyRuns.SaturatingRollback | src/server.rs:1075-1140 | a run of the server's methods (chunk, cancel, chunk) that reaches such a rollback: two bytes off a counter of one |
| Legacy.TokenNeverChanges | src/server.rs:212-249 | over every sequence of actions a handed-out token stays the same until the transfer is cancelled or expires |
| LegacyRuns.TokenStillValid | src/server.rs:212-249 | the same of every server object: a token handed out earlier is the one it still accepts |
| Legacy.CompletionReportedOnce | src/server.rs:1274-1335 | over every sequence of actions: since its admission a transfer has one completion event if it is complete and none otherwise |
| LegacyRuns.CompletionEvents | src/server.rs:1274-1335 | the same of the events every server object has emitted |
| Legacy.FinishReports | src/server.rs:1236-1335 | a received file reports the received total; completion is reported exactly with the last file and with the full total, plus what dropped uploads leaked |
| Legacy.ChunksAreReported | src/server.rs:1131-1182 | a counted chunk is reported exactly when 32 KiB have come in since the last report or the file is through, so less than that is ever unreported |
| LegacyRuns.ReportsAreTrue | src/server.rs:1131-1335 | no event of a server object reports more than the announced total and every completion reports exactly it, but for leaked bytes |
| LegacyServers.ReplyTells | src/server.rs:1070-1350 | for every body: 200 means received, otherwise unchanged, and complete exactly with the last file; an error reply means nothing changed unless the transfer is cancelled; no reply leaks at most counted bytes |
| LegacyServers.WholeBodyIff | src/server.rs:1070-1235 | the body of an upload to a live transfer is answered 200 if and only if nothing comes but chunks, exactly as long together as what the file lacks |
| LegacyServers.LegacyServer.Expire | src/server.rs:669-694 | pruning forgets exactly the idle ids without an upload |
| LegacyServers.LegacyServer.TransferRequest | src/server.rs:695-874 | reply and new state of a registration by case: a repeat changes nothing, rejected and cancelled ids stay refused, pending + rejected + cancelled never exceeds 1024 |
| LegacyServers.LegacyServer.AcceptTransfer | src/server.rs:212-249 | accepting again hands out the same token; otherwise only a pending id is approved |
| LegacyServers.LegacyServer.RejectTransfer | src/server.rs:252-290 | only a pending, unapproved id is rejected and leaves the pending set |
| LegacyServers.LegacyServer.CancelTransfer | src/server.rs:295-351 | only a pending, incomplete id is cancelled; nothing of it is left but the id, and the history gets the exact byte count |
| LegacyServers.LegacyServer.FinishUpload | src/server.rs:1214-1340 | a whole file moves from flight to receipts, completing the transfer with its last, and exactly the events of the specification are emitted |
| LegacyServers.LegacyServer.FailUpload | src/server.rs:383-389 | every failure branch leaves the receipts alone and rolls exactly this upload back |
| LegacyServers.LegacyServer.ReceiveBody | src/server.rs:1070-1182 | the body loop over chunks, stalls, breaks, cancellations, polls and a dropped request refines the recursive specification |
| LegacyServers.LegacyServer.ChunkUpload | src/server.rs:932-1350 | for every call, early replies included: 200 means that this very file is in the receipts; nothing is received unless the transfer is not cancelled, is approved with exactly this token and comes from its own source; 401, 403, 404, the early 410 and the reserved 400 are given exactly on the condition they name and change nothing; otherwise view, log and reply are those the specification gives for the body, no other id is touched, and on 200 the last events are progress with the received total and, with the last file, completion with the announced total |
| LegacyClients.LegacyClient.RequestTransfer | src/client.rs:318-390 | at most max_retries + 1 requests, all but the last transient; succeeds exactly when the last is delivered, and gives up on a transient one only when no retry is left; the error kept for after the loop is never returned |
| LegacyClients.LegacyClient.SendFileWithRetry | src/client.rs:441-464 | at most max_retries + 1 attempts; a success moves the counter by exactly the file's size whatever attempts failed, a failure by exactly what the last attempt streamed |
| LegacyClients.LegacyClient.SendFiles | src/client.rs:774-812 | after each file the counter is the prefix sum of delivered sizes; on failure it lies between two prefix sums |
| Paths.TargetStaysInside | src/server.rs:556-582 | for every name, id and relative path the parent is at or below the download directory, the base is one safe component, and resolving the target cannot leave it |
| Paths.SanitizedNameIsSafe | src/server.rs:458-484 | a sanitised name is non-empty, has no separator, control or forbidden character (named one by one), no trailing dot or space, and is neither dot nor dot-dot |
| Paths.SanitizedNameIsNoDevice | src/server.rs:458-484 | no sanitised name is one of the reserved device names (named one by one), with or without an extension |
| PathNames.PlainNameIsKept | src/server.rs:458-484 | a safe name that neither begins nor ends in white space and is no device name is stored unchanged, whatever the id beside it |
| PathNames.FallbackMattersIff | src/server.rs:458-484 | the fallback matters exactly when nothing is left of the name's last component; otherwise the result is what is left of the name, marked if it is a device name |
| PathNames.IdempotentIff | src/server.rs:458-484 | sanitising a stored name again changes nothing, if and only if it does not end in white space or comes back as the fallback |
| PathNames.NotIdempotent | src/server.rs:458-484 | a name of three characters that a second pass changes |
| PathNames.PlainPathIsKept | src/server.rs:529-582 | a relative path of ordinary names is recreated below the download directory component by component, whichever separators it is written with and whatever name and id say |
| PathNames.PlainFileIsKept | src/server.rs:556-582 | without a relative path an ordinary name is stored as it is in the download directory |
| PathNames.ReservedIs | src/server.rs:1479-1489 | a place is refused if and only if its first component is the state directory's name, in any mixture of upper and lower case |
| PathNames.CandidateIs | src/server.rs:611-620 | the first candidate is the name itself, the k-th has its number in brackets before the extension, or at the end when there is none |
| PathNames.DecimalIsNumeral | src/server.rs:611-620 | the number is written in decimal without leading zeros |
| Paths.SanitizeRelativePath | src/server.rs:529-552 | the loop keeps exactly the sanitised components that are not empty, dot or dot-dot |
| Paths.KeptAreSafe | src/server.rs:529-552 | every kept component is safe |
| Paths.OpenUniqueFile | src/server.rs:605-637 | returns the first free candidate, fails with too many conflicts if and only if all thousand are taken, and with an I/O error exactly when opening one fails otherwise |
| Paths.CandidatesAreDistinct | src/server.rs:611-620 | the candidates of one base name are pairwise distinct |
| Paths.DecimalIsInjective | src/server.rs:611-620 | decimal numerals are injective |
| Paths.NumberingRulesAgree | src/durable.rs:635-644 | the v1 and v2 rules name the same file if and only if the base is a lone dot or does not end in a dot |
| Paths.ReservedCheckCoversCandidates | src/server.rs:1479-1489 | after the single reserved check no numbered candidate falls into the state directory either |
| Paths.CandidateIsSafe | src/durable.rs:635-644 | every numbered candidate of a safe base is itself a safe component |
| Throttles.Throttle.Pace | src/throttle.rs:31-47 | the window is begun afresh exactly when it is over two seconds old, and charged with the chunk; the chunk leaves at once if and only if its window has earned it, otherwise exactly when it has, plus what the sleep is late; at once and unaccounted when the limit is off |
| Throttles.WindowsAddUp | src/throttle.rs:36-39 | bytes charged to abandoned windows had been earned before they were abandoned |
| Throttles.RateSinceCreation | src/throttle.rs:31-47 | by any time t at most rate * (t - creation) bytes have been let go, across window resets |
| Throttles.RateOverInterval | src/throttle.rs:12-47 | over any interval at most rate * length plus the larger of two seconds' worth and one chunk |
| Histories.SortedIsStable | src/history.rs:94-96 | the sort is newest first and keeps the order of equal start times |
| Histories.StableSortIsUnique | src/history.rs:94-96 | there is only one such arrangement |
| Histories.IncrementalIsBatch | src/history.rs:109-125 | after any additions, sorting and truncating as records come in lists exactly the first k of a stable sort of everything ever added |
| Histories.PagesJoin | src/history.rs:19-22 | consecutive pages concatenate to the whole list |
| Histories.InMemoryHistory.Add | src/history.rs:109-125 | one addition to the bounded store, keeping it within its limit |
| Histories.InMemoryHistory.List | src/history.rs:87-97 | the stable newest-first list; for an add-only history exactly the newest of everything added |
| Histories.InMemoryHistory.Delete | src/history.rs:127-140 | removes exactly the records with the id, and reports whether there was one |
| Histories.InMemoryHistory.Get | src/history.rs:99-107 | the first record with the id, if there is one |
| Histories.WithoutJoins | src/history.rs:127-140 | deleting keeps the order of what it keeps: a list may be split anywhere |

## Left out

- DurableLifecycle.JournalMovesForward: does not cover a journal replacement of a dropped request that lands late, over a newer record (see below); such a write could take an acknowledged cancellation back.
- DurableReceipts.AcknowledgedForever: the same.
- DurableReceipts.AcknowledgedStateSurvives: after a failed journal write that is not followed by a crash it says nothing; `AcknowledgedForever` and `SurvivesIffSomeWriteLands` cover every run.
- EndToEnd.DeliveredMeansArrived: assumes that the session is not forgotten between registration and the final report, because a forgotten id may be registered again with another manifest; `ArrivedIff` and `ForgottenPlanIsLost` say what is left then.
- DurableOffsets.OffsetsNeverDecrease: excludes cancelling and forgetting the session between the two states, which remove partial files on purpose.
- Looking a session up and locking its record is one step; a handler that still holds a session that was forgotten meanwhile is not modelled.
- DurableStores.DurableStore.Upload: runs to its end before the next call, with the cancellation token firing anywhere inside; interleaving with other sessions is covered by the step system.
- Writes run in background tasks that a dropped request does not stop (src/resumable.rs:184-204). The model lets each write, journal replacements and appended chunks alike, finish or fail before the session lock is released; that a replacement still pending after a dropped request lands late, over a newer record, is not modelled.
- Forgetting a session removes its partial files and its journal entry at once and for good: that an unlink fails, or is undone by a crash, is not modelled.
- Journal replacement is atomic; the directory entries of partial files are durable at once; on systems without directory sync the publication step differs.
- No other program alters or removes files below the download directory; it may save new ones, synced or not. That it syncs one later is not a step of its own, so a file it left unsynced counts as unsynced until the next crash.
- Path components and contents only: symbolic links, permissions, the lock file and directory creation are operating-system behaviour.
- An I/O error while hashing the partial file abandons the upload; its reply text is not modelled.
- The end of a v1 upload under the decision lock (receipt, completion, events) is one step: a request dropped between its awaits is not modelled, only one dropped before.
- Rejecting a session that was cancelled adds a second history record; history records of the receiver are not modelled.
- LegacyServers.LegacyServer.ChunkUpload: its early checks are one atomic step, and the keeping apart of v1 and v2 ids under two different locks is reduced to a flag.
- LegacyServers.LegacyServer.TransferRequest: idle time is a set of ids chosen by the caller, and the id length is counted in characters.
- Throttles.Throttle.Pace: exact real time instead of floating-point durations.
- Sender.Engine.AwaitApproval: the two-minute timeout is a number of polls; cancelling through the sender's handle is not modelled.
- Hashing a file in 64 KiB pieces (src/resumable.rs:166-183): the digest and length of the whole contents are taken in one step.
- IP address normalisation (src/server.rs:586-604): a source address is an opaque string.
- Transfer speed values in progress events, because they are floating-point estimates without effect.
- TLS, certificates, bearer checks and CORS (src/security.rs): a caller is an opaque owner string compared for equality.
- HTTP routing, event streams, JSON encoding and server startup.
- Discovery, address resolution, favourites, configuration and the engine facade (src/discovery.rs, src/favorites.rs, src/config.rs, src/lib.rs): plain map updates and wrappers.
- Memory-only helpers whose contract would repeat their body (pending lists, status of a v1 transfer, speed and counters of the user interface).
