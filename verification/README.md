# The write protocol between the command line and the Anki companion

This project models how a reviewed change reaches an Anki collection and what survives when either side stops in the
middle. There are two parties. The **companion** runs inside Anki. It keeps a durable ledger of operation rows,
owner tokens with increasing fences, and a volatile set of live workers; it executes an accepted operation in one
main-thread callback. The **command line** freezes an intent of ordered steps, journals each request before it is
sent, judges it by a read-back afterwards, and recovers from a crash by looking at the native row and at the
collection again.

## How the model is built

- `Anki`, `Effects`, `EffectLaws`: a collection as a value, and every typed effect as a preflight and a perform.
  `LiveCollection` performs the same writes in place, one at a time, and may stop after any of them. `Grants` says
  exactly what each preflight tests. `Payloads` and `TaskMaps` are the validators the effects rely on.
- `Undo` and `Prediction`: what the reverse effect gives back, and when the post-state the command line freezes is
  the one the effect produces.
- `Ledger`, `LedgerLaws`, `OperationLedger`: the ledger as a value with its laws, and as mutable tables with one
  transaction per call.
- `Companion`, `CompanionLaws`, `Safety`, `Interleaving`, `Receipts`: the companion as a transition system. `Apply`
  is total, and a label whose guard fails changes nothing, so a run is any list of labels: requests of any client,
  user edits, reopened collections, crashes inside an effect. `NativeActions` is the executor over its ledger, collection and
  session tracker, and each of its methods is a run of that system; `Confirmation` is what its undisturbed run
  achieves. `Critical` and `SessionTracker` are the slot protocol and the session epochs.
- `Readback`, `Journal`, `Planning`, `System`, `Moves`, `Serving`, `Client`, `Driver`, `Reconcile`, `Recovery`,
  `Attempts`, `Outlook`, `Guarantees`: the client. Class `Client` holds the world, the requests that may still
  arrive, the published operations and a script that says what happens around each call: interference, a lost
  request, a lost reply, a refused call, a killed process. An empty script is an undisturbed world, and `cutsOnly`
  one in which calls, replies and the process are lost and nothing else happens. Every method keeps the invariant
  `System.SystemOk` under every script.
- `Scope`, `Checkpoint`, `MediaMap`, `CallBudget`, `Generation`: the checkpoint gate and its lifecycle, the
  media-map record counter, the sliding-window call budget, and windowed draft generation.

A digest is modelled by the value it is taken over, so digests are equal exactly when those values are. A list that
the program sorts before it digests it is a set or a map here. Fresh UUIDs are identifiers above every one in use.
Of Anki itself the model takes this as given: a mapped note-type change keeps mapped cards and removes the others;
writing a note generates one card for each template that renders and has no card; nothing else creates cards. A
request that the companion answered with a refusal is not delivered again later.

## What the code does not promise

Four statements one could expect are false of the code. Each has a member that says exactly when it holds.

- *An item is applied at most once.* An attempt that stopped right after its journal reached `checkpointed` is not
  pending, so the test for earlier attempts lets a second attempt through; reconciling the first one afterwards
  sends its request too. `Guarantees.AppliedTwice` shows it for every new note whose files are there already,
  `Guarantees.AppliedTwiceAfterEdit` for every item when the user puts the collection back in between, and
  `Guarantees.CheckpointGap` on one concrete collection. `Planning.AdmittedExactly` says that these attempts are the
  only ones let through that can still write, and `Attempts.Campaign` that no run that starts none over them applies
  an item twice.
- *A restore returns the note's content.* It does exactly when neither the old fields nor the new fields at a mapped
  ordinal render a template for which the note had no card (`Undo.RestoreUndoesUpdate`); `Undo.RestoreGap` is one
  note it does not return. Study is conserved either way. `Undo.ReversibleExactly` says when the reverse effect is
  accepted at all.
- *Reconcile writes nothing without `--apply`.* The comment on `ReconcileRequest.apply` says so
  (crates/linguist-application/src/apply.rs:2331-2332), but an operation whose steps are all verified is committed
  without it, and put up for review when the final read-back differs (apply.rs:2638-2642 with 2165-2177).
  `Recovery.ReconcileOperation` says exactly when an undisturbed call without the flag changes the journal, and to
  what; `Guarantees.CommitGap` and `Guarantees.ReviewGap` make one such call of each kind. A mismatch found while
  the journal already waits for a review is recorded once more by the code; the model, which has no issue list, sees
  no change there.
- *An interrupted checkpoint can be abandoned.* The store refuses the closing append for a journal that stopped
  before its request, or after its observation but before its receipt was saved (`Checkpoint.AbandonableExactly`,
  with `Checkpoint.AbandonGap` for one of each kind).

Total convergence is not claimed: a row left `running` by a crash before its effect becomes `unknown`, and with an
unchanged collection it waits for a human.

## Model

| member | source | states |
|---|---|---|
| Ledger.LastDigestPinsHistory | addons/linguist_bridge/operations.py:432-441 | the digest of a row's last event fixes every earlier event of its history |
| LedgerLaws.HistoriesAreMoves | addons/linguist_bridge/operations.py:370-400 | the five accepted histories are exactly the chains of legal moves that start queued |
| LedgerLaws.BeginOwnerSound | addons/linguist_bridge/operations.py:277-312 | a new owner's generation and token are new, nothing is in flight afterwards, and only rows without a live worker were closed |
| LedgerLaws.QueueNewSound | addons/linguist_bridge/operations.py:451-501 | a repeated request returns the stored row unchanged; an inserted row is the only one in flight and belongs to the current owner |
| LedgerLaws.MarkRunningSound | addons/linguist_bridge/operations.py:509-525 | only the newest owner moves a row to running, and only from queued |
| LedgerLaws.OthersRefused | addons/linguist_bridge/operations.py:503-579 | no owner but the one a row was accepted under moves it |
| LedgerLaws.EndOwnerEnds | addons/linguist_bridge/operations.py:314-338 | exactly an issued owner can be ended; ending the newest leaves no current owner, ending an older one changes none, and new requests and starts of the ended owner are refused |
| LedgerLaws.StaleRequestRefused | addons/linguist_bridge/operations.py:328-338 | a new request of a replaced or released owner is refused |
| OperationLedger.OperationLedger.CheckHistory | addons/linguist_bridge/operations.py:367-400 | the walk over a row's events accepts exactly the digest-chained histories with one of the five shapes |
| OperationLedger.OperationLedger.BeginOwner | addons/linguist_bridge/operations.py:277-312 | the transaction yields the specified ledger or leaves the tables as they were, also when it stops half way |
| OperationLedger.OperationLedger.EndOwner | addons/linguist_bridge/operations.py:314-326 | releases exactly an issued owner and keeps the fencing invariant, the rows and the owners; nobody is current after the newest owner's end, and an older owner's end leaves the current one |
| OperationLedger.OperationLedger.QueueNew | addons/linguist_bridge/operations.py:451-501 | accepts exactly when the specification does, with the specified tables, and changes nothing otherwise |
| OperationLedger.OperationLedger.MarkRunning | addons/linguist_bridge/operations.py:509-525 | makes the durable step at most once and keeps the fencing invariant |
| OperationLedger.OperationLedger.MarkVerified | addons/linguist_bridge/operations.py:543-558 | closes only a running row, with its receipt; repeating the call changes nothing |
| OperationLedger.OperationLedger.MarkUnknown | addons/linguist_bridge/operations.py:527-541 | closes only a running row as unknown; repeating the call changes nothing |
| OperationLedger.OperationLedger.FailBeforeWrite | addons/linguist_bridge/operations.py:560-579 | closes only a queued row as failed before any write |
| CompanionLaws.RunKeeps | addons/linguist_bridge/native.py:285-377 | in every run at most one row is in flight and it carries the newest owner, and no run withdraws a row, an owner or an effect |
| Safety.AtMostOneEffect | addons/linguist_bridge/native.py:304-377 | over whole runs one operation has at most one native effect, and a longer run never repeats or undoes it |
| Safety.FailedBeforeWriteIsTruthful | addons/linguist_bridge/operations.py:285-305 | a row failed before any write never had its effect and never will |
| Safety.VerifiedIsPerformed | addons/linguist_bridge/native.py:360-368 | a verified row had its effect, once |
| Receipts.ReceiptsAreTruthful | addons/linguist_bridge/native.py:445-459 | in every run a verified row has an effect that left the collection as it asks, and its receipt is the read-back of that collection |
| Interleaving.AcceptedIsStructured | addons/linguist_bridge/payloads.py:190-306 | in every run an accepted row's body has bounded bijective maps, disjoint kept and removed cards, its marker and one schedule a task |
| Interleaving.RefusesExactly | addons/linguist_bridge/native.py:331-352 | the callback refuses for the first of a replaced owner, a changed session and a failed precondition |
| Interleaving.NoLostEdit | addons/linguist_bridge/effects.py:265-285 | every update, restore and deletion of every run was made on a note with exactly the expected content |
| Interleaving.EditedNoteIsRefused | addons/linguist_bridge/native.py:332-352 | when the content differs the callback cannot start; it closes the row before any write and leaves the collection alone |
| Grants.AcceptsExactly | addons/linguist_bridge/effects.py:171-183 | every preflight accepts exactly under its precondition: for a create no note with the marker, the reviewed note type and field set, an ordinary deck and unchanged schedule sources outside filtered decks; likewise for updates, restores, deletions and files |
| Interleaving.MadeAsGranted | addons/linguist_bridge/native.py:348-361 | in every run, every effect was made on a collection that meets its precondition |
| Interleaving.StartsExactly | addons/linguist_bridge/native.py:326-354 | the callback starts a queued row exactly under its current owner, in its session, and on a collection that meets the precondition |
| Interleaving.UngrantedIsRefused | addons/linguist_bridge/native.py:346-352 | when the precondition fails the callback can only close the row before any write, and leaves the collection alone |
| Interleaving.ReleasedIsSilent | addons/linguist_bridge/operations.py:314-338 | in every run after an owner's release none of its requests is accepted anew, and no row of it that had no effect by then ever gets one |
| Interleaving.PassesKeepWellFormed | addons/linguist_bridge/effects.py:242-255 | even an effect cut short leaves identifiers, field sets and card ordinals well formed |
| Interleaving.StudyIsConserved | addons/linguist_bridge/effects.py:215-226 | no effect of any run, cut short or not, loses a studied card or changes a schedule or history; a run without user edits loses none end to end |
| Interleaving.EffectsUnderTheirSession | addons/linguist_bridge/native.py:332-345 | every effect was made in the session and under the owner its row was accepted with |
| Interleaving.ReopenedNeverPerforms | addons/linguist_bridge/session.py:69-91 | once the collection is reopened, a row accepted before that has not taken effect never will |
| NativeActions.NativeActions.Begin | addons/linguist_bridge/native.py:180-197 | a begin is one step of the companion, granted exactly when the session and the live set allow it |
| NativeActions.NativeActions.End | addons/linguist_bridge/native.py:199-204 | an end is one step of the companion, granted exactly to an issued owner |
| NativeActions.NativeActions.Mutate | addons/linguist_bridge/native.py:285-314 | an acceptance is one step of the companion; only an inserted row gets a callback, and an invalid body is refused |
| NativeActions.NativeActions.Execute | addons/linguist_bridge/native.py:320-377 | the callback starts exactly when the row is queued and clears every check; then effect and close, or an export under way; otherwise one truthful refusal or nothing durable; after a start the effect is complete exactly when its writes are left and it can be; undisturbed it ends verified with the effect made once; the run keeps the invariant under failing ledger writes and effects cut short |
| NativeActions.NativeActions.CollectionOpened | addons/linguist_bridge/startup.py:65-83 | an opening gives a session under an epoch never issued before, or none, and is one step of the companion |
| NativeActions.NativeActions.SessionLost | addons/linguist_bridge/startup.py:82-83 | an invalidation is one step of the companion, which ends the session and changes nothing else |
| NativeActions.NativeActions.ObservedSession | addons/linguist_bridge/startup.py:88-92 | an action sees the tracked session only while profile, path, file and handle are those of its opening; otherwise the session ends |
| NativeActions.NativeActions.ExportDone | addons/linguist_bridge/startup.py:169-202 | the session resumes under its old epoch exactly when the identities it was set aside with are unchanged, and is a new opening otherwise; the row closes by the outcome |
| Critical.CriticalSection | addons/linguist_bridge/native.py:102-129 | in every interleaving the function runs at most once, only while the slot is held, and never once abandoned |
| Critical.StartedIsAwaited | addons/linguist_bridge/native.py:119-127 | a started function is waited for before the slot is freed |
| Critical.Section.Interleave | addons/linguist_bridge/native.py:102-129 | any schedule of the two threads over the shared flags is a run of the protocol with at most one execution |
| SessionTracker.SessionTracker.Opened | addons/linguist_bridge/session.py:69-91 | a successful load gets an epoch never issued before, and a failed one leaves no session |
| SessionTracker.SessionTracker.Observed | addons/linguist_bridge/session.py:93-106 | a session is reported exactly while profile, path, file and handle are those of its opening |
| SessionTracker.SessionTracker.Resume | addons/linguist_bridge/session.py:116-133 | the epoch survives a temporary close exactly when profile, path, file and handle are unchanged |
| SessionTracker.SessionTracker.Replay | addons/linguist_bridge/session.py:50-133 | every call of any sequence is answered as it must be: a new epoch for each successful opening, an old one only for the very profile, path, file and handle of its opening; one epoch never names two openings |
| EffectLaws.EffectsConserveStudy | addons/linguist_bridge/effects.py:288-301 | no effect, complete or cut short anywhere, removes a studied card or changes an existing schedule or history |
| EffectLaws.EffectsKeepWellFormed | addons/linguist_bridge/effects.py:242-255 | a validated effect keeps a note's card ordinals distinct |
| Undo.UpdateLeaves | addons/linguist_bridge/effects.py:288-301 | after an update every old card sits at its mapped ordinal with its study, and each uncovered rendered ordinal has one fresh card |
| Undo.RestoreKeepsOldCards | addons/linguist_bridge/effects.py:346-356 | a restore puts every original card back at its ordinal and deck with the study it has now |
| Undo.RestoreUndoesUpdate | addons/linguist_bridge/effects.py:311-356 | restore after update and later study gives back the content digest exactly under a guard on rendered templates, and always conserves study |
| Undo.ReversibleExactly | addons/linguist_bridge/effects.py:311-343 | after an accepted update, mapped or not, and any later study, the reverse effect passes its own preflight exactly when no removed card was studied, the old decks are ordinary and no memory state changes preset |
| Undo.ReversibleRightAway | addons/linguist_bridge/effects.py:311-343 | right after an update that is exactly when every old card's deck is an ordinary deck |
| Undo.RestoreGap | addons/linguist_bridge/effects.py:346-356 | one note whose content a restore does not return, because the update generated a card it never had |
| LiveCollection.RequestRetypes | addons/linguist_bridge/effects.py:242-255 | the target-to-source template request makes exactly the mapped source-to-target change |
| LiveCollection.LiveCollection.Update | addons/linguist_bridge/effects.py:288-301 | the writes of an update end in the specified collection exactly when as many are left as it needs, and otherwise at one of the specified cuts |
| LiveCollection.LiveCollection.Restore | addons/linguist_bridge/effects.py:346-356 | the writes of a restore end in the specified collection exactly when as many are left as it needs, and otherwise at one of the specified cuts |
| LiveCollection.LiveCollection.CopySchedules | addons/linguist_bridge/effects.py:153-168 | the schedules copied so far are those of a prefix of the entries, and a missing card stops the loop |
| LiveCollection.LiveCollection.Create | addons/linguist_bridge/effects.py:185-193 | the writes of a create end in the specified collection and note exactly when as many are left as it needs and every listed task has a card, and otherwise at one of the specified cuts |
| LiveCollection.LiveCollection.Move | addons/linguist_bridge/effects.py:215-226 | deck moves change nothing but decks, finish exactly when one write is left for each misplaced card, and a stop leaves exactly the unmoved cards |
| LiveCollection.LiveCollection.Perform | addons/linguist_bridge/native.py:424-443 | the effect of any accepted body is the specified one, complete exactly when the writes it needs are left and it can be |
| Confirmation.EffectReadsBack | addons/linguist_bridge/native.py:445-459 | the companion's own read-back confirms every complete effect |
| Confirmation.UndisturbedIsConfirmed | addons/linguist_bridge/native.py:320-377 | start, effect and close of a queued row that clears every check leave its effect made once, the specified collection and a verified row |
| Payloads.CheckMigration | addons/linguist_bridge/payloads.py:190-207 | an ordinal map is accepted exactly when it is a bounded partial bijection |
| Payloads.CheckInherit | addons/linguist_bridge/payloads.py:210-225 | copied schedules are accepted exactly when no card ordinal repeats |
| Payloads.CheckRestore | addons/linguist_bridge/payloads.py:285-306 | kept and removed cards are accepted exactly when none repeats and none is in both lists |
| TaskMaps.MigrationPlan | crates/linguist-application/src/apply.rs:938-989 | a reviewed task map yields a migration exactly when it exists, is for this kind and for the model the note has, and maps every card injectively onto live templates |
| Prediction.UpdateAsPredicted | crates/linguist-application/src/apply.rs:1159-1247 | the read-back of an accepted update equals the frozen post-state exactly when the templates render the requested tasks where no old card lands |
| Prediction.CreateAsPredicted | crates/linguist-application/src/apply.rs:1159-1247 | a created note is the only one with its marker, and its read-back equals the frozen post-state exactly when the templates render the requested tasks |
| Prediction.InheritDone | addons/linguist_bridge/effects.py:153-168 | copying schedules completes exactly when the note has a card for every listed task |
| Prediction.InheritLeaves | crates/linguist-application/src/apply.rs:810-818 | a copied schedule is the source's without its repetitions, lapses, flag and home due date |
| Journal.LegalKeepsShape | crates/linguist-store/src/journal.rs:113-209 | every accepted append keeps verified steps first, then at most one in another state, then intents |
| Journal.HistoryShape | crates/linguist-store/src/journal.rs:35-99 | in every accepted history a verified step shows its expected digest, a commit has every step verified, and a failure before writes has no sent step |
| Journal.TerminalIsFinal | crates/linguist-store/src/journal.rs:113-149 | a terminal journal never changes again except that a restore may follow a commit |
| Readback.MarkedExactly | crates/linguist-application/src/apply.rs:1903-1934 | a create shows its precondition exactly while no note has the marker and its expectation exactly when one note has it and reads as expected; several notes are neither |
| Readback.OthersExactly | crates/linguist-application/src/apply.rs:1885-1949 | a file shows its precondition exactly while it is absent and an update while the note has its old content; otherwise each shows its expectation exactly on the expected value |
| Readback.FinalExactly | crates/linguist-application/src/apply.rs:2145-2170 | a commit compares the first note with the marker, or the target note, and nothing when there is none |
| System.SystemStays | crates/linguist-application/src/apply.rs:1984-1996 | whatever others do in the companion, what a journal says of its steps stays true |
| Journal.HistoryProgress | crates/linguist-store/src/journal.rs:100-209 | over any accepted history an operation keeps its identity and approval, and every step keeps its identity and expectation and only progresses; what is verified or known to have failed never changes |
| Journal.HistorySteps | crates/linguist-store/src/journal.rs:35-209 | a request is journaled only when every step before it is verified and nothing is unresolved, new steps only as intents, doubt only with the operation waiting for recovery |
| System.StepEffectOnce | crates/linguist-application/src/apply.rs:2454-2482 | however a step's request is sent, lost, repeated and resubmitted, its effect is made at most once |
| System.FailedJournalIsTruthful | crates/linguist-application/src/apply.rs:2016-2041 | a journal failed before any write has no step whose effect was made |
| System.CommitIsSound | crates/linguist-application/src/apply.rs:2139-2234 | a committed journal has every step verified against a state that was seen, and a receipt of a matching final read-back |
| Moves.StartedLegal | crates/linguist-application/src/apply.rs:2116-2136 | the driver's start of a step is an append the store accepts |
| Moves.RefusedLegal | crates/linguist-application/src/apply.rs:2016-2041 | recording a refusal is an append the store accepts, failed before writes only when nothing else was done |
| Client.Client.Mutate | crates/linguist-application/src/native_port.rs:389-433 | a refusal of a request sent for the first time proves that it never takes effect; a settled answer is the row's state; undisturbed, the answer is exactly the ledger's refusal or the state the callback leaves |
| Client.Client.End | crates/linguist-application/src/native_port.rs:328-333 | an undisturbed end of the current owner leaves nobody current and nothing else changed |
| Client.RestingBegins | addons/linguist_bridge/operations.py:277-312 | after a restart a begin always succeeds and clears what the crash left in flight |
| Serving.ServedAny | addons/linguist_bridge/native.py:320-377 | an undisturbed accepted request of any kind is settled: closed before any write when its preflight refuses, else made once, and verified exactly when complete and read back |
| Serving.ServedCalm | addons/linguist_bridge/native.py:320-377 | an undisturbed request for a step that is ready takes effect exactly once, is verified, and leaves nothing in flight |
| Driver.VerifyStep | crates/linguist-application/src/apply.rs:1984-1996 | a step becomes verified only on a read-back equal to its expectation |
| Driver.Dispatch | crates/linguist-application/src/apply.rs:2043-2113 | success is journaled only on a matching read-back, failure only when no effect was or can be made, and the invariant holds wherever it is cut off; undisturbed, owner, preflight, effect and read-back decide exactly between success, a failure (which closes the journal as failed before any write unless another step went on), a mismatch and doubt |
| Driver.Drive | crates/linguist-application/src/apply.rs:2116-2136 | steps are sent in order, each only after all before it are verified; an undisturbed drive makes each effect once |
| Driver.Commit | crates/linguist-application/src/apply.rs:2139-2234 | commits exactly on a matching final read-back, with its receipt saved first and reused after an interruption; a differing one is put up for review |
| Reconcile.RecoveryIsJustified | crates/linguist-application/src/apply.rs:2360-2482 | whatever happened between asking for the row and reading the collection: adopted only what was seen, failed only what had and can have no effect, sent or sent again only what had no effect by then |
| Reconcile.ReconcileOne | crates/linguist-application/src/apply.rs:2411-2530 | resolving a step keeps the invariant under every interference and cut, and writes nothing without the apply flag; undisturbed, the step's state, its row and the collection decide exactly whether it is adopted, sent, sent again, recorded as failed, waited for or left to a human |
| Reconcile.ReconcileSteps | crates/linguist-application/src/apply.rs:2411-2539 | an undisturbed pass over an interrupted operation adopts what took effect, sends again what never reached the ledger, sends the rest, and executes nothing twice |
| Recovery.ReconcileOperation | crates/linguist-application/src/apply.rs:2543-2650 | nothing is sent without the apply flag, and nothing at all happens without a session the operation is bound or rebound to; an undisturbed call without it changes the journal exactly when every step is verified in its own session, to committed when the final read-back matches and to a review when it differs; terminal operations never change |
| Recovery.AffectedExactly | crates/linguist-application/src/apply.rs:2687-2706 | two collections give a rebinding decision the same state exactly when they show the operation the same notes and the same files |
| Recovery.ReconcileDecided | crates/linguist-application/src/apply.rs:2591-2612 | under a decision taken on a collection whose notes or files differ from now, nothing happens at all; otherwise an operation on track is carried to its end in the new session |
| Planning.AdmittedExactly | crates/linguist-application/src/apply.rs:719-753 | an earlier attempt is let through exactly when it can never make its main effect or stopped at its checkpoint |
| Planning.MadeExactly | crates/linguist-application/src/apply.rs:1628-1640 | an item becomes an intent exactly when its source note is there, no file collides, its schedules can be predicted and something is left to change |
| Planning.UploadsExactly | crates/linguist-application/src/apply.rs:1641-1661 | an intent uploads exactly the absent files, each with its bytes |
| Planning.MadeIntentPlanned | crates/linguist-application/src/apply.rs:1662-1706 | a frozen intent has its uploads first, one main step last, and an identifier of its own for each |
| Attempts.ApplyItem | crates/linguist-application/src/apply.rs:1605-1802 | an attempt keeps the invariant wherever it is cut off; undisturbed it commits with each effect made once; with nothing but losses and kills it has made its first effects once each and its journal says how many |
| Attempts.Campaign | crates/linguist-application/src/apply.rs:1528-1558 | any sequence of commands under any interference and crashes moves the operations step by step as stated and keeps the invariant; when none was started over a checkpointed attempt, no item is applied twice |
| Attempts.CampaignFromStart | crates/linguist-application/src/apply.rs:1528-1558 | the same from the first start of both sides |
| Attempts.ItemAppliedOnce | crates/linguist-application/src/apply.rs:719-753 | with one open attempt per item, its main effect is made at most once over all attempts |
| Outlook.IntentOnTrack | crates/linguist-application/src/apply.rs:1880-1975 | an intent whose item is predicted rightly, changes the content and uploads differently named files reads back as expected step after step |
| Guarantees.NoLostEffect | crates/linguist-application/src/apply.rs:2411-2539 | after a crash behind any number of effects, or with the last request lost, an undisturbed reconcile commits and executes exactly the missing steps |
| Guarantees.ExactlyOnceOrNever | crates/linguist-application/src/apply.rs:1605-1802 | an apply whose calls, replies and process are lost at any points, then an undisturbed reconcile of an operation past its preflight: every effect exactly once and committed, or never begun and nothing made |
| Guarantees.AppliedTwice | crates/linguist-application/src/apply.rs:731-753 | a second attempt at a new note over one stopped at its checkpoint, then reconciling the first, makes the main effect twice |
| Guarantees.AppliedTwiceAfterEdit | crates/linguist-application/src/apply.rs:731-753 | the same for every item on track when the user puts the collection back in between |
| Guarantees.CheckpointGap | crates/linguist-application/src/apply.rs:731-753 | one concrete collection in which the item's note is created twice |
| Guarantees.CommitGap | crates/linguist-application/src/apply.rs:2638-2642 | one call without the apply flag that commits |
| Guarantees.ReviewGap | crates/linguist-application/src/apply.rs:2165-2177 | one call without the apply flag that puts the operation up for review |
| Scope.StrictlySorted | crates/linguist-application/src/checkpoint.rs:745-754 | one pass accepts exactly the strictly increasing lists |
| Scope.Validate | crates/linguist-application/src/checkpoint.rs:757-794 | a scope is accepted exactly when it is bounded, sorted, closed over its notes and not empty where it must not be |
| Checkpoint.RequireCheckpoint | crates/linguist-application/src/backup.rs:503-581 | the gate never opens without cause, and for a validated scope opens exactly when binding, restoration, coverage, scope, reuse and artifact allow |
| Checkpoint.Lifecycle.Create | crates/linguist-application/src/backup.rs:239-467 | a run succeeds exactly when scope, manifest, output, package, inspection and restoration allow and all seven durable writes last, and saves its receipt exactly when the first six do; it otherwise leaves a closed journal or one in doubt; wherever it stops, a committed journal has a saved receipt of this request, and a receipt rests on a validated scope and a package that was inspected and restored alike, and claims the coverage found there |
| Checkpoint.Lifecycle.Abandon | crates/linguist-application/src/backup.rs:682-730 | a journal with a saved receipt is never closed; without failing writes any other is closed exactly when it stopped between the request and its observation or is closed already, and the temporary file is gone |
| Checkpoint.AbandonableExactly | crates/linguist-application/src/backup.rs:716-729 | the store accepts the closing append exactly for journals that stopped between request and observation |
| Checkpoint.AbandonGap | crates/linguist-application/src/backup.rs:716-729 | two interrupted checkpoint journals whose closing append the store refuses |
| MediaMap.CountMediaRecords | crates/linguist-application/src/checkpoint.rs:300-328 | the loops terminate on every input and yield the specified count or error |
| MediaMap.VarintReads | crates/linguist-application/src/checkpoint.rs:308-320 | a length reads back with what follows it exactly when it fits the groups of seven bits |
| MediaMap.RoundTrip | crates/linguist-application/src/checkpoint.rs:300-328 | encoded records are counted exactly, with the limit error beyond the limit, exactly as long as each length fits five groups |
| MediaMap.CountsExactly | crates/linguist-application/src/checkpoint.rs:300-328 | on any bytes: `n` exactly for `n` whole records within the limit, the limit error exactly when more stand at the front, and the error for a damaged map exactly when something else follows |
| CallBudget.AdmittedIsBounded | crates/linguist-application/src/agents.rs:264-278 | an admitted call keeps every half-open window within the budget |
| CallBudget.UntilIsFirst | crates/linguist-application/src/agents.rs:264-278 | with the budget exactly spent, the reported instant is the first at which a call is admitted again |
| CallBudget.CallLog.Calls | crates/linguist-application/src/agents.rs:432-456 | over any serialized calls compaction never changes a decision, no window holds more than the budget, and the log never holds more than four budgets |
| Generation.GeneratePending | crates/linguist-application/src/generation.rs:95-289 | final documents are what each item becomes on its own whatever the width and chunk; published revisions are chained merged heads, each with exactly a chunk more drafts than the one before and the last with the rest; the run ends well exactly when as many publications succeed as the drafts need; and at every moment, also when a publication fails, at most a chunk of documents is unpublished |
| Generation.ChainNumbers | crates/linguist-application/src/generation.rs:153-166 | published revision numbers are consecutive from the base |

## Left out

- `delete_merged_note`, `recreate_deleted_note` and `install_model`: recreation carries no FSRS memory, so no round trip is intended; a model install would add only easy members.
- The restore command (crates/linguist-application/src/restore.rs) and the journal state `restored`: the reverse effect is modelled and proved, its driver is not, and no operation here reaches that state.
- Checkpoint authorization inside an apply, split groups, batches of items and the choice of copied schedules: an apply here starts from a plan whose model, deck, mapping, schedules and media are resolved.
- Journal issues, evidence assets and outcome texts: they carry no decision; a review notice repeated in the code is one append that changes nothing here.
- A load that resumes the session set aside before its own export has ended: any other opening during an export, and the export's own reopening, are modelled.
- Sorting of tags, cards and ordinal maps: they are sets, maps or order-independent lists here.
- SQLite, file locks, fsync, permissions, leases, HTTP and polling times: a durable write happens or fails, and a request is delivered, lost, or loses its reply.
- JCS, SHA-256, SHA-1, UUID and Unicode syntax: abstract injective digests and fresh identifiers; text limits and name rules of payloads are not modelled.
- Anki's scheduler, its undo, and cards it creates or deletes on its own: any change a user or Anki makes between callbacks is an arbitrary well-formed collection.
- The callback's collection is a value during a crash: which cut a crash leaves is any of the modelled ones, not a torn write inside one Anki call.
- NativeActions.NativeActions.Execute: does not model a crash between its steps, because `Companion` has that crash as labels of their own; the method covers every other way its steps can fail.
- Client.Client.Mutate: does not model the port's own refusals one by one; a local refusal sends nothing and is one fate of the script.
- Prediction.UpdateAsPredicted: does not cover a note studied between preflight and effect, because the frozen schedules then differ and the code reports a mismatch.
- Guarantees.NoLostEffect: does not claim progress when the new content equals the old one, because the code tests the precondition before the expectation (apply.rs:1931) and such an update never commits.
- Guarantees.ExactlyOnceOrNever: covers losses and kills on the client's side; what a crash of Anki leaves is a starting state of `Guarantees.NoLostEffect`, because a row left `running` before its effect waits for a human.
- Guarantees.AppliedTwice: covers new notes whose files are there already; a missing file or an existing note needs the edit of `Guarantees.AppliedTwiceAfterEdit`, because the second attempt leaves what the first one would find done.
- MediaMap.RoundTrip: does not model 32-bit `usize`, on which the largest five-group lengths do not fit.
- CallBudget.CallLog.Calls: does not model a clock that goes back, failing writes of the log file, or several processes at once.
- Generation.GeneratePending: does not model the revision number limit, provider fallback, validation of a draft, or the per-item report.
- Image, dictionary and HTML providers, prompts, the campaign engine, configuration and packaging: input and output, or rules of language without a deep invariant.
