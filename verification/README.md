# Evidence pipeline of Yatagarasu, modelled and proved in Dafny

Yatagarasu delivers messages into live agent sessions and believes nothing it cannot prove. A delivery
advances only on receipts; a receipt counts only with evidence; and the evidence of a session turn is a
chain of host events that ties one typed marker to one delivery. This project models that pipeline and the
two side-effect protocols beside it, and proves what each part keeps over every run, with crashes, replays
and interleavings included.

`dafny verify dfyconfig.toml` checks everything.

## How the model is laid out

**The core.** `CoreTypes`, `Proofs`, `Tables` and `Store` hold the values, the marker and proof validator,
every transaction as a function on the tables, and the store object whose methods carry those out in place.
`Reducer` gives a submission twice: `Advance` is one database statement with the checks up to the next, so
that submissions can interleave statement by statement, and the class `ReceiptReducer` runs a whole one.
`Acceptance` and `Refusals` say from outside, guard by guard, which receipts it accepts and why it refuses the
others. `Broadcasts` is the roster expansion. `Machine` is any number of processes on one store. `Ledgers`,
`Submissions` and `Reachable` carry the invariant through every step, and `StoreTheorems` reads the results
off it: one evidenced step at a time, exact closure, idempotence, binding authority, broadcast integrity.
`Resubmission`, `BindingLife` and `Outcomes` add what a second receipt under an id is answered, when a binding
begins and ends to count, and what a broadcast writes and answers.

**The stream.** `Emitter` and `Producer` are the two correlation objects. `Correlation` proves that workspaces
do not interfere and that a noisy turn collapses to two receipts; `Soundness` proves that every chain a
one-boot stream makes them emit is one the core's validator passes. `Outbox` is the durable event log with its
cursor order, `Resident` the reconnect loop with its accounting, `Gaps` when a connection of it closes a gap,
and `CrashTransparency` shows that no schedule of crashes, restarts and reconnects can be told from an
uninterrupted run by what was sent; `Refinement` ties that transition system to the resident's own calls.

**Intent before effect.** `Journal` holds the injection journal and the injector. `Notifications` is what
keeps banners and rows in step, `Seats` the table side of publishing, `Desktops` the host whose banners a user
also touches, `Banners` the notification lifecycle against it, and `BannerRuns` whole runs.

**Markers.** `Base64` and `Marker` are the short marker codec: unpadded base64url (RFC 4648, sections 5, 3.2
and 3.5) inside a token found in arbitrary text.

**All together.** `EndToEnd` joins the two sides: a turn whose prompt carries the authoritative marker ends in
processed/completed, and one with another signature changes nothing. `StoredTurns` starts further out, at the
frames of a mixed stream and the text that was typed.

`Sorting` and `Repeats` are the ordering of queries and the removal of repeats.

## How the world is represented

- A table is a map or a sequence in row order; its uniqueness, reference and null constraints are explicit
  checks, and a transaction that fails changes nothing.
- Timestamps are texts under an arbitrary parsing function, so malformed ones are covered. Signing is an
  arbitrary function of everything it covers, assumed injective only where a statement says so. A source
  event chain is a sequence instead of its canonical text. JSON is an arbitrary parsing and rendering
  function.
- A crash is a stop between any two durable or external steps. It discards memory and keeps what was
  committed. A sink, a host or a terminal may fail at every call, and a failed call may have had its effect.
- Ids drawn at random, the clock, the frames a server sends and the answers of the desktop are parameters
  over which everything is quantified.
- Event names are a datatype with the four names the code tests for and two open cases for all others.

## What the model brought to light

- An injection is attempted at most once per delivery id for good. `deliver` says it promises a verdict and
  never an exception, and the journal's header says a redelivery re-emits the recorded outcome; with the
  pending hook wired to `prepare`, the code instead lets the journal's error escape
  (`Journal.ResendImpossible`). A "not submitted" verdict after the effect may be re-queued only under a new
  delivery id. The model follows the code.
- `disconnect_at_seq` is not reset between connections, so a reconnect row may carry the drop of an earlier
  connection (`Resident.SecondRowCarriesTheFirstDrop`); it carries its own exactly when its connection was
  dropped itself or no earlier one was (`Resident.ReportsOwnDropExactly`).
- A row can be retired while its banner lives. `_notification_exists` reads a misshapen listing, and one that
  does not give the id, as "not there" after a protocol error; and `_retire_delivery` skips a match whose id is
  not a text, and dismisses one whose id is empty under that empty name, so a row that `publish` left prepared
  with `notification_id_missing` retires over its own banner (`BannerRuns.BannerOutlivesItsRow`). These are all
  the ways (`Banners.SurvivesExactly`): under a host with neither answer no retired delivery has a live banner
  (`BannerRuns.RunFromStart`).
- The 180-character check in `encode_short` can never refuse a marker (`Marker.ShortFits`).
- A boot id that comes back after a declared gap may store rows out of order (`Outbox.ReturningBootDisorders`).
  A call keeps the order exactly when it moves the cursor to a number that no stored row of that boot exceeds,
  which a caller can look up first (`Outbox.CallKeepsOrderExactly`).

## Model

| member | source | states |
|---|---|---|
| `Proofs.ValidMarkerIsMintedMarker` | core/yatagarasu_core/proofs.py:60-130 | validation accepts a marker if and only if this authority would mint that very marker for that very delivery and the observation lies in its half-open window |
| `Proofs.ChainOkMeaning` | core/yatagarasu_core/proofs.py:242-266 | the ordered early-return checks pass if and only if the chain has the expected names, one source, one boot, identified events, distinct ids and strictly rising numbers |
| `Proofs.AcceptedProofIsSound` | core/yatagarasu_core/proofs.py:207-278 | a session proof is accepted if and only if its class is declared for an event-bus method and the bundle is sound: a minted marker in its window, a sound chain, the prompt showing binding and signature, the hooks showing the session |
| `Proofs.MintsExactly` | core/yatagarasu_core/proofs.py:60-91 | minting gives a marker if and only if the delivery is bound and the lifetime is positive and within the limit; the marker is the signature over version 1, the delivery's ids, its binding, the conversation scope and the two times |
| `Proofs.ProofAcceptedExactly` | core/yatagarasu_core/proofs.py:207-278 | the same acceptance read off the bundle itself: which claims the marker carries and signs, the window, and the chain as input, prompt, prompt hook and, for a completion, stop, of one source and boot under rising numbers and ids of their own |
| `Store.CoreStore.AddDelivery` | core/yatagarasu_core/store.py:278-295 | adds the delivery, or changes nothing when the id exists |
| `Store.CoreStore.SetDispatching` | core/yatagarasu_core/store.py:351-358 | moves exactly a queued delivery to dispatching, else changes nothing |
| `Store.CoreStore.AcceptReceipt` | core/yatagarasu_core/store.py:654-729 | one transaction: receipt row, guarded state change and audit row together, with a uniqueness error winning over a changed state; on any failure every table is as before |
| `Store.CoreStore.RegisterProvider` | core/yatagarasu_core/store.py:377-391 | provider and all its declarations, or nothing |
| `Store.CoreStore.BindPrincipal` | core/yatagarasu_core/store.py:540-548 | one principal row, or nothing on a key or reference error |
| `Store.CoreStore.BindMessage` | core/yatagarasu_core/store.py:550-564 | one message row, or nothing on a key or reference error |
| `Store.CoreStore.RegisterSessionBinding` | core/yatagarasu_core/store.py:393-402 | validates, then writes binding and methods in one transaction; a failed call changes nothing |
| `Store.CoreStore.SupersedeSessionBinding` | core/yatagarasu_core/store.py:404-419 | retires the old binding and writes the new one in one transaction; a failed call changes nothing |
| `Store.CoreStore.RevokeSessionBinding` | core/yatagarasu_core/store.py:457-464 | an active binding ends revoked, every other field, binding and table as before; any other id changes nothing |
| `Store.CoreStore.ReplaceRoomRoster` | core/yatagarasu_core/store.py:297-318 | replaces the whole roster, or refuses an empty name, an empty roster or a repeated member |
| `Store.CoreStore.RecordRejection` | core/yatagarasu_core/store.py:738-753 | appends one rejection row and touches nothing else |
| `Store.CoreStore.MarkProviderDegraded` | core/yatagarasu_core/store.py:581-586 | degrades exactly that provider |
| `Reducer.ReceiptReducer.Submit` | core/yatagarasu_core/receipts.py:48-108 | tables and result are exactly those of the submission run statement by statement without interruption, whose outcome the `Acceptance` rows give class by class and `RefusedForFirstFailure` gives reason by reason |
| `Reducer.ReceiptReducer.ExistingReceiptResult` | core/yatagarasu_core/receipts.py:110-122 | an equal claim is a duplicate, another claim under the id degrades the provider and is rejected |
| `Reducer.ReceiptReducer.RecoverIntegrityCollision` | core/yatagarasu_core/receipts.py:124-141 | after a uniqueness race the durable winners decide the verdict, in the documented order |
| `Reducer.ReceiptReducer.ValidateParticipant` | core/yatagarasu_core/receipts.py:256-283 | reads only; its verdict is that of the separate participant checks |
| `Reducer.ReceiptReducer.ValidateSessionReceipt` | core/yatagarasu_core/receipts.py:173-234 | reads only; its verdict is the session verdict |
| `Reducer.ReceiptReducer.Reject` | core/yatagarasu_core/receipts.py:354-356 | records the rejection and nothing else |
| `Reducer.SessionStepsAlone` | core/yatagarasu_core/receipts.py:173-234 | the separate session reads, run without interruption, end in exactly that verdict |
| `Reducer.ReadDescends` | core/yatagarasu_core/receipts.py:48-108 | every submission ends: each read moves it strictly towards a result |
| `Reducer.KnownIdAlone` | core/yatagarasu_core/receipts.py:110-122 | a submission under an id on file is a duplicate or a contradiction, never anything else |
| `Acceptance.AckAcceptedExactly` | core/yatagarasu_core/receipts.py:285-310 | a transport acknowledgement is accepted, and the delivery becomes transport-submitted, if and only if it is fresh, addressed and declared, the delivery is bound and dispatching, no disposition is claimed, and the provider is a session transport or, in a channel, a comms view naming the bound message |
| `Acceptance.ReplyAcceptedExactly` | core/yatagarasu_core/receipts.py:256-283 | a participant reply is accepted, and the delivery becomes processed/answered, if and only if it is so presented for a transport-submitted channel delivery, is neither the provider's own nor infrastructure, has a new source event, the recipient's principal and the bound message, and claims nothing or answered |
| `Acceptance.ReactionAcceptedExactly` | core/yatagarasu_core/receipts.py:256-283 | a participant reaction likewise, if and only if it acknowledges or holds, and the delivery ends as it says |
| `Acceptance.EntryAcceptedExactly` | core/yatagarasu_core/receipts.py:312-325 | a session entry is accepted, and the delivery is in session, if and only if a turn is proved under the delivery's own active binding for a transport-submitted delivery, without a disposition |
| `Acceptance.CompletionAcceptedExactly` | core/yatagarasu_core/receipts.py:173-234 | a turn's end is accepted, and the delivery becomes processed/completed, if and only if the turn is proved for a delivery in session, its chain less the stop is that of the latest entry on file, and it claims nothing but completion |
| `Acceptance.OtherClassesNeverAccepted` | core/yatagarasu_core/receipts.py:352-352 | no other evidence class is ever accepted |
| `Refusals.RefusedForFirstFailure` | core/yatagarasu_core/receipts.py:48-108 | a receipt under an unused id is rejected for the first of the checks it fails, in the source's order, with that reason on record and nothing else changed; failing none it is accepted |
| `Resubmission.AcceptedWrites` | core/yatagarasu_core/store.py:654-729 | the receipt row and the audit row of an acceptance, column by column |
| `Resubmission.ResubmittedExactly` | core/yatagarasu_core/receipts.py:110-171 | once accepted, then after any further run another receipt under the id is a duplicate if and only if it agrees in every claimed member, and is else refused as a contradiction that marks its provider degraded |
| `BindingLife.RegistersExactly` | core/yatagarasu_core/store.py:393-455 | a registration succeeds if and only if the binding is complete, active, in a proper window, of a session transport that declares all its methods' evidence, and nothing stands against its id, its recipient or its methods |
| `BindingLife.SupersedesExactly` | core/yatagarasu_core/store.py:404-419 | a replacement succeeds if and only if the old binding is the same recipient's active one and the new one could be registered without it |
| `BindingLife.InactiveNeverAccepts` | core/yatagarasu_core/receipts.py:173-234 | no session proof is accepted for a delivery whose binding is not active |
| `BindingLife.RevocationEnds` | core/yatagarasu_core/store.py:457-464 | after a revocation, in every later reachable state, no session proof under that binding is accepted |
| `BindingLife.SupersessionEnds` | core/yatagarasu_core/store.py:404-419 | after a supersession the same holds of the old binding, and the replacement is the recipient's only active one |
| `BindingLife.BindingsStayComplete` | core/yatagarasu_core/store.py:421-455 | in every reachable state every binding on file names everything and was in force for some time, and every method on file is complete |
| `Broadcasts.BroadcastKernel.Broadcast` | core/yatagarasu_core/broadcasts.py:38-136 | the whole expansion is written, or no table changes |
| `Broadcasts.BroadcastKernel.ActiveSessionBindingFor` | core/yatagarasu_core/store.py:505-518 | the recipient's active binding if its window covers the moment, else none |
| `Outcomes.ExpandedExactly` | core/yatagarasu_core/broadcasts.py:38-136 | a request is expanded if and only if it is complete, its time parses, somebody else is on the roster, and every id drawn and every key of the new rows is unused |
| `Outcomes.ExpansionWrites` | core/yatagarasu_core/broadcasts.py:74-128 | the event, the broadcast, the audit row and, per member, one queued session-bound delivery and its numbered row under the live binding; nothing else |
| `Outcomes.OthersExactly` | core/yatagarasu_core/broadcasts.py:54-60 | the members other than the actor, each as often as on the roster |
| `Outcomes.OthersOrder` | core/yatagarasu_core/broadcasts.py:54-60 | in the roster's order |
| `Outcomes.LiveBindingExactly` | core/yatagarasu_core/store.py:505-518 | a seat is served by a binding if and only if it is its recipient's active one and its half-open window holds the moment |
| `Outcomes.AllDeliveredExactly` | core/yatagarasu_core/broadcasts.py:138-200 | in every reachable state a broadcast's answer tells each seat's stored state and disposition, reports a seat unavailable if and only if it still waits and has no binding or an inactive one, and is all delivered if and only if every recipient row names a delivery that is transport-submitted, in session or processed |
| `Submissions.ReadKeepsStageOk` | core/yatagarasu_core/receipts.py:48-108 | what a submission has read stays true enough between its statements, whatever others write in between |
| `Submissions.CommitKeepsPaths` | core/yatagarasu_core/store.py:654-729 | a commit keeps every delivery on its path and every completion closed over the entry on file |
| `Submissions.CommitKeepsUnique` | core/yatagarasu_core/store.py:92-113 | a commit never lets one receipt id or one provider source event back two receipts |
| `Reachable.StepKeepsInv` | core/yatagarasu_core/receipts.py:48-108 | every step of every interleaved process and every other transaction keeps all invariants and only moves the tables forward |
| `Reachable.RunKeepsInv` | core/yatagarasu_core/receipts.py:48-108 | the same over any run |
| `StoreTheorems.AuditFollowsPath` | core/yatagarasu_core/receipts.py:285-352 | in every reachable state a delivery added as queued has walked its mode's only path, one audited and evidenced step per receipt, exactly as far as its state; its disposition is set exactly when processed |
| `StoreTheorems.ReceiptsMatchAudit` | core/yatagarasu_core/store.py:654-729 | receipts and audit rows correspond one to one; no receipt id and no non-null provider source event backs two receipts |
| `StoreTheorems.ExactClosure` | core/yatagarasu_core/receipts.py:204-224 | every processed session-bound delivery has exactly one entry and one completion receipt; the completion chain is the entry chain and one later Stop of the same boot, marker signature and session; with an injective signature the two observations are less than a marker lifetime apart |
| `StoreTheorems.BackedPairInWindow` | core/yatagarasu_core/proofs.py:120-130 | two receipts under one injective signature lie within one marker window |
| `StoreTheorems.OnFileIsDuplicate` | core/yatagarasu_core/receipts.py:110-122 | a claim on file is answered "duplicate" and no table changes |
| `StoreTheorems.AcceptedStaysDuplicate` | core/yatagarasu_core/receipts.py:143-171 | once accepted, a receipt is a duplicate in every later reachable state |
| `StoreTheorems.UsedIdNeverAdvances` | core/yatagarasu_core/receipts.py:110-122 | no step of any submission under a used id moves a delivery or adds a receipt |
| `StoreTheorems.ContradictionIsRefused` | core/yatagarasu_core/receipts.py:110-116 | another claim under a used id is rejected, degrades the provider and advances nothing |
| `StoreTheorems.BindingAuthority` | core/yatagarasu_core/store.py:126-127 | in every reachable state a recipient has at most one active binding, and every binding's evidence is declared by its session-transport provider |
| `StoreTheorems.RetiredForever` | core/yatagarasu_core/store.py:404-464 | a revoked or superseded binding never becomes active again and keeps its identity |
| `StoreTheorems.BroadcastReportsRoster` | core/yatagarasu_core/broadcasts.py:51-136 | a fresh broadcast reports the roster without the actor, in order, each seat queued under its live binding |
| `StoreTheorems.BroadcastIntegrity` | core/yatagarasu_core/broadcasts.py:138-175 | whatever happens to rosters and bindings later, the snapshot is consistent, its seats stay, states only advance, and "all delivered", as `AllDeliveredExactly` defines it, never goes back |
| `StoreTheorems.UnboundSeatNeverDelivered` | core/yatagarasu_core/broadcasts.py:177-200 | a seat without a binding stays queued or dispatching, is reported absent, and its broadcast is never all delivered |
| `StoreTheorems.UnboundStays` | core/yatagarasu_core/store.py:92-99 | a delivery without a binding can never leave queued or dispatching |
| `Sorting.SortSorts` | core/yatagarasu_core/broadcasts.py:145-152 | the query order is the sorted order |
| `Emitter.ReceiptEmitter.Observe` | plugins/cmux/yatagarasu_cmux/receipt_emitter.py:58-164 | correlation state and delivered receipts are those of the step function; when the core cannot take a receipt it has received nothing |
| `Emitter.ReceiptEmitter.OpenTurn` | plugins/cmux/yatagarasu_cmux/receipt_emitter.py:79-124 | pops the pending chain and, if complete and bound, sends the entry receipt before the turn becomes active |
| `Emitter.ReceiptEmitter.CloseTurn` | plugins/cmux/yatagarasu_cmux/receipt_emitter.py:126-164 | pops the active turn and sends its completion |
| `Emitter.ReceiptIdsDiffer` | plugins/cmux/yatagarasu_cmux/receipt_emitter.py:105-106 | receipt ids of different events differ |
| `Producer.TranslatesExactly` | plugins/cmux/yatagarasu_cmux/receipt_producer.py:157-211 | a stored event translates if and only if its text is readable, contradicts neither its boot, id, name nor number, and says when it occurred |
| `Producer.DerivedEventReceiptProducer.Recover` | plugins/cmux/yatagarasu_cmux/receipt_producer.py:64-75 | rebuilding from stored events leaves exactly the memory, and sends again exactly the receipts, of having observed them in order |
| `Producer.DerivedEventReceiptProducer.Observe` | plugins/cmux/yatagarasu_cmux/receipt_producer.py:77-87 | translate, normalize, emit; a failing call has sent nothing |
| `Producer.DerivedEventReceiptProducer.AcceptForEmission` | plugins/cmux/yatagarasu_cmux/receipt_producer.py:89-134 | which observations reach the emitter, and the workspace chain afterwards |
| `Correlation.NonInterference` | plugins/cmux/yatagarasu_cmux/receipt_producer.py:97-134 | in any interleaving one workspace's receipts are those of its own observations alone |
| `Correlation.TurnEmitsTwo` | plugins/cmux/yatagarasu_cmux/receipt_producer.py:89-134 | from any memory a turn, with any duplicates, unfinished phases and unrelated events and after any prompts under other markers, emits exactly its entry and its completion receipt over the first occurrences under its marker |
| `Correlation.InterleavedTurnEmitsTwo` | plugins/cmux/yatagarasu_cmux/receipt_emitter.py:47-82 | the same inside any stream mixed with other workspaces |
| `Correlation.TurnOpens` | plugins/cmux/yatagarasu_cmux/receipt_emitter.py:79-124 | up to its first usable prompt hook a turn emits its entry receipt |
| `Correlation.OneWorkspace` | plugins/cmux/yatagarasu_cmux/receipt_producer.py:97-101 | a named workspace's part of a stream is exactly the observations that name it |
| `Soundness.EmittedChainsAreSound` | plugins/cmux/yatagarasu_cmux/receipt_emitter.py:70-164 | on any one-boot stream every emitted chain passes the core's name, source, boot, distinctness, order and session checks; every completion extends an earlier entry's chain; no two extend the same one |
| `Soundness.StreamSound` | plugins/cmux/yatagarasu_cmux/receipt_emitter.py:70-164 | the invariant behind it, after every prefix of the stream |
| `Soundness.EachInputOpensOnce` | plugins/cmux/yatagarasu_cmux/receipt_emitter.py:79-90 | on any stream whose inputs differ, no input is the start of two entry receipts, however many prompts and hooks follow it |
| `Soundness.CompletionSent` | plugins/cmux/yatagarasu_cmux/receipt_emitter.py:126-164 | closing a turn sends a sound completion of the entry that opened it |
| `Soundness.EntrySent` | plugins/cmux/yatagarasu_cmux/receipt_emitter.py:79-124 | opening a turn sends a sound entry and leaves the turn open |
| `Outbox.EventOutbox.Commit` | plugins/cmux/yatagarasu_cmux/event_outbox.py:133-187 | row and cursor advance together or the call raises and nothing changes; a boot change without the permit always raises |
| `Outbox.InsertsExactly` | plugins/cmux/yatagarasu_cmux/event_outbox.py:133-187 | an event is inserted if and only if it is whole, a JSON object, new in position and id, and its source has no cursor, or one before it in this boot, or one in another boot that the caller permits to leave |
| `Outbox.BootChangeNeedsPermit` | plugins/cmux/yatagarasu_cmux/event_outbox.py:159-161 | an unseen event of another boot without the permit raises and changes nothing |
| `Outbox.ResnapshotsExactly` | plugins/cmux/yatagarasu_cmux/event_outbox.py:189-216 | a gap is closed if and only if there are snapshots of distinct named commands with JSON values, and the cursor does not go back within its boot |
| `Outbox.ResnapshotWrites` | plugins/cmux/yatagarasu_cmux/event_outbox.py:217-252 | every command's baseline, one audit row naming the commands, and the cursor, all at the position; no other baseline and no row changes |
| `Outbox.ReconnectsExactly` | plugins/cmux/yatagarasu_cmux/event_outbox.py:254-291 | a replay is entered if and only if it stands at the durable cursor |
| `Outbox.EventOutbox.Resnapshot` | plugins/cmux/yatagarasu_cmux/event_outbox.py:189-252 | baselines, one gap row and the cursor together, or nothing |
| `Outbox.EventOutbox.ReconnectReplay` | plugins/cmux/yatagarasu_cmux/event_outbox.py:254-291 | one accounting row at the durable cursor, or nothing |
| `Outbox.EventsOfExactly` | plugins/cmux/yatagarasu_cmux/event_outbox.py:293-313 | a source's stored events are its rows, each as often |
| `Outbox.EventsOfOrder` | plugins/cmux/yatagarasu_cmux/event_outbox.py:293-313 | in row order |
| `Outbox.TablesStayOk` | plugins/cmux/yatagarasu_cmux/event_outbox.py:19-28 | in every reachable log rows are valid, have a cursor, and share neither position nor id |
| `Outbox.CursorOrder` | plugins/cmux/yatagarasu_cmux/event_outbox.py:133-187 | along every run the pair of boots so far and sequence number never falls, and rises wherever a row was inserted |
| `Outbox.StepRaisesRank` | plugins/cmux/yatagarasu_cmux/event_outbox.py:159-181 | one call never moves a source back, and an insertion moves it strictly on |
| `Outbox.CallKeepsOrderExactly` | plugins/cmux/yatagarasu_cmux/event_outbox.py:159-181 | one call keeps a source's ordered log ordered if and only if it leaves the cursor alone or moves it to a number that no stored row of that boot exceeds |
| `Outbox.RunOrderedExactly` | plugins/cmux/yatagarasu_cmux/event_outbox.py:159-181 | along a run the log is ordered all the way if and only if every call does so |
| `Outbox.RowsAscendExactly` | plugins/cmux/yatagarasu_cmux/event_outbox.py:159-187 | the rows stored at the end ascend within each boot if and only if each was past the rows of its boot stored before it |
| `Outbox.RowsFollowTheCursor` | plugins/cmux/yatagarasu_cmux/event_outbox.py:159-166 | in particular, when boot ids do not recur each boot's rows ascend strictly and none of the cursor's boot is past the cursor |
| `Outbox.ReturningBootDisorders` | plugins/cmux/yatagarasu_cmux/event_outbox.py:159-166 | a boot id that comes back after a declared gap may store a lower number: a concrete run |
| `Outbox.DuplicateExactlyWhenStored` | plugins/cmux/yatagarasu_cmux/event_outbox.py:145-149 | a commit is a duplicate if and only if that very event is stored, and then changes nothing |
| `Outbox.RecommitChangesNothing` | plugins/cmux/yatagarasu_cmux/event_outbox.py:145-149 | committing stored events again, in any order and number, changes nothing |
| `CrashTransparency.CrashesAreInvisible` | plugins/cmux/yatagarasu_cmux/resident.py:71-141 | after any schedule of crashes, restarts, reconnects and sink failures the outbox is the first k events with the cursor at the last, and everything ever sent, repeats removed, is what an uninterrupted run over the first k or k + 1 events sends |
| `CrashTransparency.SmoothRunReachesAll` | plugins/cmux/yatagarasu_cmux/resident.py:101-141 | the uninterrupted run reaches every event that translates and sends exactly those receipts |
| `CrashTransparency.StepKeeps` | plugins/cmux/yatagarasu_cmux/resident.py:71-141 | the invariant behind it, for every single action |
| `CrashTransparency.NextReceiptIsNew` | plugins/cmux/yatagarasu_cmux/receipt_emitter.py:105-106 | the receipt of a later event is none of the earlier ones |
| `CrashTransparency.ServesTheRest` | plugins/cmux/yatagarasu_cmux/resident.py:76-80 | resuming after the cursor's number serves exactly the events not yet stored |
| `CrashTransparency.CommitAppends` | plugins/cmux/yatagarasu_cmux/event_outbox.py:133-187 | the next event is new, carries on from the cursor and is inserted without a declared gap |
| `CrashTransparency.CrashFreeOfPrefix` | plugins/cmux/yatagarasu_cmux/receipt_producer.py:64-75 | the uninterrupted run over a prefix sees nothing of the later events |
| `Refinement.RecoveryIsASchedule` | plugins/cmux/yatagarasu_cmux/resident.py:71-74 | a successful recovery of the producer is a start, one replay per stored event and the end of recovery |
| `Refinement.ConnectionIsASchedule` | plugins/cmux/yatagarasu_cmux/resident.py:76-137 | what following a connection without a gap leaves in outbox, memory and core is what connecting, observing and committing each event, and disconnecting leave |
| `Refinement.RecoveredConnectionIsTransparent` | plugins/cmux/yatagarasu_cmux/resident.py:59-141 | whatever crashes came before, once the resident has recovered and followed a connection the outbox is a prefix of the server's log, and everything ever sent, repeats removed, is what an uninterrupted run over it, or over one event more, sends |
| `Repeats.WithoutRepeats` | plugins/cmux/yatagarasu_cmux/journal.py:210-214 | the first occurrences, in order: same elements, none twice |
| `Resident.ProjectionKeepsEvidence` | plugins/cmux/yatagarasu_cmux/stream_protocol.py:121-185 | minimizing an event for storage loses nothing the receipt plane uses |
| `Gaps.ProjectsExactly` | plugins/cmux/yatagarasu_cmux/stream_protocol.py:121-185 | an event frame is taken if and only if its protocol is known, it is of the acked boot, and it has a number, an id and a name; and what is stored of it |
| `Gaps.AckParsesExactly` | plugins/cmux/yatagarasu_cmux/stream_protocol.py:67-112 | an ack parses if and only if it is whole, to its own members |
| `Gaps.ConnectionGap` | plugins/cmux/yatagarasu_cmux/resident.py:85-99 | a finished connection whose ack declares a gap, or names another boot than the cursor's, took the snapshots and has exactly one gap row: at the ack's latest number without replay, and at the number of the last declared replay event otherwise, where the cursor is left if nothing more was served; any other connection has no gap row and took no snapshot |
| `Gaps.RunGaps` | plugins/cmux/yatagarasu_cmux/resident.py:85-151 | the same of the audit of a whole run, at each connection's place |
| `Gaps.ConnectionResume` | plugins/cmux/yatagarasu_cmux/resident.py:157-170 | a resumed connection ends with its one replay row, at the cursor it left, with the declared replay, the rows it added and the served events that were stored already |
| `Resident.EventStreamResident.Ingest` | plugins/cmux/yatagarasu_cmux/resident.py:128-137 | observe, then commit: outbox, memory and receipts are those of feeding the event; whatever fails, the outbox is as before |
| `Resident.EventStreamResident.TakeFrame` | plugins/cmux/yatagarasu_cmux/resident.py:105-158 | a drop ends the connection, a heartbeat is passed over, an event is counted and stored, anything else is an error |
| `Resident.EventStreamResident.Consume` | plugins/cmux/yatagarasu_cmux/resident.py:88-158 | inserts and duplicates are the events served, the declared replay was served in full, a gap added exactly its one row; without a gap outbox, memory and receipts are those of feeding these events in order |
| `Resident.EventStreamResident.Connection` | plugins/cmux/yatagarasu_cmux/resident.py:77-170 | one connection's audit rows carry its own counts, between the cursor it found and the cursor it left |
| `Resident.EventStreamResident.Run` | plugins/cmux/yatagarasu_cmux/resident.py:59-181 | a run succeeds, when the sink takes everything, if and only if the stored events translate and every connection is acked and served, and then leaves exactly the tables of its connections in turn; its totals: inserted is the outbox growth, inserted and duplicates are the events served, the replay total is what the acks declared, the audit gained exactly the rows of the connections, and each connection resumed from the cursor its predecessor left, the first from the cursor found and the last to the cursor left |
| `Resident.EventStreamResident.RecoverProducer` | plugins/cmux/yatagarasu_cmux/resident.py:71-74 | the producer's memory is rebuilt from this source's stored events and their receipts are sent again; it succeeds whenever they translate and the sink is ready |
| `Resident.EventStreamResident.Resnapshot` | plugins/cmux/yatagarasu_cmux/resident.py:183-192 | takes the snapshots and records them at the given position, or changes nothing |
| `Resident.OneRowPerGapAndResume` | plugins/cmux/yatagarasu_cmux/resident.py:93-170 | as many gap rows as gap connections, as many replay rows as resumed ones |
| `Resident.EveryConnectionResumes` | plugins/cmux/yatagarasu_cmux/resident.py:76-170 | from an outbox that has a cursor every connection of a run resumes, and so adds its one replay row |
| `Resident.ReportsOwnDropExactly` | plugins/cmux/yatagarasu_cmux/resident.py:66-123 | the drop reported for a connection is its own if and only if it was dropped itself or no earlier one was |
| `Resident.RowOfResumed` | plugins/cmux/yatagarasu_cmux/resident.py:159-170 | a resumed connection's row stands in its place in the audit with its own cursor and counts, and the drop it reports is its own exactly then |
| `Resident.SecondRowCarriesTheFirstDrop` | plugins/cmux/yatagarasu_cmux/resident.py:66-170 | a concrete run of two connections whose second row reports the first one's drop |
| `Journal.AtMostOneSend` | plugins/cmux/yatagarasu_cmux/injector.py:150-173 | over every run of interleaved attempts, crashes and redeliveries at most one send is attempted per delivery, and none without a durable row |
| `Journal.ResendImpossible` | plugins/cmux/yatagarasu_cmux/journal.py:160-180 | after a send no later action sends that delivery again, and a second intent changes nothing |
| `Journal.RowsFollowLifecycle` | plugins/cmux/yatagarasu_cmux/journal.py:74-79 | no step removes a row; its identity stays, its state follows a legal transition or stays, its evidence only grows |
| `Journal.SettlesExactly` | plugins/cmux/yatagarasu_cmux/journal.py:185-232 | a settlement is accepted if and only if it repeats the row's state, or takes a prepared row to injected or ambiguous, or an injected one to acked; it then writes that state, its time and, if it has one, its detail |
| `Journal.AckedWasInjected` | plugins/cmux/yatagarasu_cmux/journal.py:74-79 | along every run a row that is acked was injected before, and one that is injected or ambiguous was prepared before |
| `Journal.OutcomesStay` | plugins/cmux/yatagarasu_cmux/journal.py:74-79 | acked and ambiguous are final, and injected stays until acked |
| `Journal.EvidenceIsEverythingGiven` | plugins/cmux/yatagarasu_cmux/journal.py:206-214 | a row's evidence is exactly everything accepted settlements gave, repeats removed, in first-given order |
| `Journal.MergeIsRemovalOfRepeats` | plugins/cmux/yatagarasu_cmux/journal.py:210-214 | merging in order is removing repeats from the concatenation |
| `Journal.InjectionJournal.PrepareRow` | plugins/cmux/yatagarasu_cmux/journal.py:140-183 | one prepared row, or an error and no change when the delivery has one |
| `Journal.InjectionJournal.SettleRow` | plugins/cmux/yatagarasu_cmux/journal.py:185-232 | an accepted settlement changes exactly that row as the lifecycle allows; a refused one changes nothing |
| `Journal.InjectionJournal.Unsettled` | plugins/cmux/yatagarasu_cmux/journal.py:243-249 | exactly the prepared rows, in preparation order |
| `Journal.Injector.Deliver` | plugins/cmux/yatagarasu_cmux/injector.py:92-173 | the pane is touched only after this call wrote the row; text once, then the keys in order; wherever it dies the journal and the sends are those of the step machine; the journal's error escapes if and only if the delivery already has a row |
| `Journal.Injector.Effects` | plugins/cmux/yatagarasu_cmux/injector.py:156-173 | text, then a prefix of the submit keys; an effect that failed leaves the verdict unknown, otherwise the observed events decide it |
| `Journal.Injector.Touch` | plugins/cmux/yatagarasu_cmux/injector.py:156-162 | the effects in order up to the first failure or the death of the process |
| `Journal.Injector.AwaitProof` | plugins/cmux/yatagarasu_cmux/injector.py:175-217 | submitted if and only if both required events were observed, with the evidence up to that moment; a clean negative if and only if nothing was |
| `Notifications.SubtitlesDiffer` | plugins/cmux/yatagarasu_cmux/notifications.py:375-378 | the token is a fixed-length suffix, so no two deliveries show the same subtitle |
| `Notifications.DisplayedTokenEnds` | plugins/cmux/yatagarasu_cmux/notifications.py:119-120 | what is displayed ends with the delivery's token |
| `Notifications.OneBannerPerDelivery` | plugins/cmux/yatagarasu_cmux/notifications.py:38-44 | at most one live banner carries a delivery's subtitle, and none a retired one's, unless that delivery is marked as retired with its banner left |
| `Notifications.ActivatedRowSafe` | plugins/cmux/yatagarasu_cmux/notifications.py:195-207 | recording the only banner that shows a row is safe and never collides with another row's notification |
| `Notifications.CreatedBannerSafe` | plugins/cmux/yatagarasu_cmux/notifications.py:182-193 | creating a banner for a prepared row that nobody shows is safe |
| `Notifications.RetireAllRow` | plugins/cmux/yatagarasu_cmux/notifications.py:268-294 | retiring a list touches exactly the listed live rows |
| `Seats.ExpiredExactly` | plugins/cmux/yatagarasu_cmux/notifications.py:245-255 | row by row: exactly the live rows whose time is up become expired, and no other row changes |
| `Seats.InterruptedExpiry` | plugins/cmux/yatagarasu_cmux/notifications.py:245-255 | an expiry that is cut short has retired the oldest: no row it retired is younger than one still due |
| `Seats.EvictionsCount` | plugins/cmux/yatagarasu_cmux/notifications.py:296-306 | the eviction list has exactly the excess, distinct and active, and never the new row |
| `Seats.EvictionsAreOldest` | plugins/cmux/yatagarasu_cmux/notifications.py:296-306 | no evicted row is younger, by creation then event id, than an active row that stays |
| `Seats.CapHolds` | plugins/cmux/yatagarasu_cmux/notifications.py:296-306 | after enforcement the seat has the lesser of its cap and its former number of active rows, the new one among them |
| `Seats.EnforcementRestoresCaps` | plugins/cmux/yatagarasu_cmux/notifications.py:202-211 | an activation followed by enforcement leaves every seat within its cap |
| `Seats.PublishedRow` | plugins/cmux/yatagarasu_cmux/notifications.py:105-211 | what a finished publication does to each row that was there before: the claim's own is the one returned; any other only ages, or is evicted if it was active on the seat and not due, and then no other row of the seat that stays active is older |
| `Seats.PublishedFirst` | plugins/cmux/yatagarasu_cmux/notifications.py:141-180 | a finished publication of a delivery without a row returns the row it added: created now, to expire after the mailbox time, with the claim's event, seat, place and texts and the subtitle ending in its token |
| `Seats.PublishedAgain` | plugins/cmux/yatagarasu_cmux/notifications.py:121-211 | of a delivery that has a row, it returns that row, which was live and not due, with its own times |
| `Seats.PublishedClaim` | plugins/cmux/yatagarasu_cmux/notifications.py:342-374 | whatever row a finished publication returns makes the claim: event, delivery, seat, place, texts, and the subtitle with the token |
| `Seats.PublishedLives` | plugins/cmux/yatagarasu_cmux/notifications.py:245-255 | an expiry touches the published row if and only if its time is up |
| `Seats.PublishedCount` | plugins/cmux/yatagarasu_cmux/notifications.py:296-306 | it leaves its seat with one more active row than it found, or at the cap |
| `Desktops.SettledExactly` | plugins/cmux/yatagarasu_cmux/notifications.py:283-288 | a settled dismissal leaves the banner if and only if it failed with a protocol error and the next listing was misshapen or did not give that banner's id |
| `Banners.SurvivesExactly` | plugins/cmux/yatagarasu_cmux/notifications.py:268-288 | a banner outlives the retirement of its row if and only if the user kept it and either its listing gave it no usable id or its dismissal was so missed |
| `Banners.NotificationLifecycle.DismissOne` | plugins/cmux/yatagarasu_cmux/notifications.py:283-288 | a dismissal is settled exactly as the host's answers say, or fails |
| `Banners.NotificationLifecycle.RetireDelivery` | plugins/cmux/yatagarasu_cmux/notifications.py:268-294 | exactly that row retires; its banner survives if and only if the host's answers overlooked it, and exactly then the delivery is marked; a failure or crash leaves table and mark as they were |
| `Banners.NotificationLifecycle.Reconcile` | plugins/cmux/yatagarasu_cmux/notifications.py:182-201 | creates nothing when the first listing shows the row, and at most one banner otherwise; fails under an obliging host only for an id that is missing or not a text |
| `Banners.NotificationLifecycle.PrepareRow` | plugins/cmux/yatagarasu_cmux/notifications.py:121-180 | the claim's own live row, inserted prepared with its lifetime if there was none; otherwise nothing changes and the error names why |
| `Banners.NotificationLifecycle.Publish` | plugins/cmux/yatagarasu_cmux/notifications.py:105-211 | a finished publication is exactly the one specified from the table before the call: due rows expired, the claim's row taken or inserted, activated, the seat capped; a new banner can only be this delivery's and only while its row was absent or prepared; seats within their caps stay so unless enforcement was interrupted |
| `Banners.NotificationLifecycle.Expire` | plugins/cmux/yatagarasu_cmux/notifications.py:245-255 | retires the due rows in age order and counts them; a failure leaves the rest of that order live |
| `Banners.NotificationLifecycle.OnReceipt` | plugins/cmux/yatagarasu_cmux/notifications.py:213-232 | unless the host fails, retires if and only if the receipt was accepted as in-session on entry evidence for a live row of that event |
| `Banners.NotificationLifecycle.OnNotificationRead` | plugins/cmux/yatagarasu_cmux/notifications.py:234-243 | unless the host fails, retires if and only if a row is active with exactly that notification |
| `BannerRuns.RunCalls` | plugins/cmux/yatagarasu_cmux/notifications.py:38-44 | any sequence of calls, each failing or dying anywhere: the screen matches the table except for deliveries newly marked, each because, within the run, a banner that the user kept was overlooked by the host's answers to a retirement; retired rows never change; every seat stays within its cap unless a publication was interrupted |
| `BannerRuns.RunFromStart` | plugins/cmux/yatagarasu_cmux/notifications.py:38-44 | from a fresh start under a host without such answers, no retired delivery has a live banner |
| `BannerRuns.BannerOutlivesItsRow` | plugins/cmux/yatagarasu_cmux/notifications.py:274-294 | a host that obeys in everything but gives no id: for every claim, publication leaves the row prepared with its banner on screen, and a receipt then retires the row and dismisses nothing |
| `Base64.DecodeEncode` | plugins/cmux/yatagarasu_cmux/marker.py:106-110 | decoding an encoded byte string gives it back; the form is unique |
| `Base64.EncodeDecode` | plugins/cmux/yatagarasu_cmux/marker.py:148-154 | re-encoding a decoded text gives it back if and only if its unused bits are zero (RFC 4648, section 3.5) |
| `Base64.BytesThenHex` | plugins/cmux/yatagarasu_cmux/marker.py:106-110 | hexadecimal text and bytes are inverse |
| `Marker.SignatureIsCanonical` | plugins/cmux/yatagarasu_cmux/marker.py:148-154 | 43 token characters are accepted if and only if they are the unpadded base64url form of some 32 bytes, then unique |
| `Marker.ShortFits` | plugins/cmux/yatagarasu_cmux/marker.py:113-125 | a marker is encodable if and only if its ids and signature are well formed, and then takes at most 179 characters: the length check never fires |
| `Marker.PatternIsUnambiguous` | plugins/cmux/yatagarasu_cmux/marker.py:88-94 | the parser finds exactly the pattern's match, and a text has at most one at its start |
| `Marker.PreviewRoundTrip` | plugins/cmux/yatagarasu_cmux/marker.py:128-159 | for every prefix without the letter y, every body and every cut behind the token, extraction returns exactly delivery, binding and signature |
| `Marker.ExtractAgain` | plugins/cmux/yatagarasu_cmux/marker.py:185-189 | re-printing an extracted marker and extracting again gives the same marker, for any text |
| `Marker.LongTokenIsExtracted` | plugins/cmux/yatagarasu_cmux/marker.py:161-182 | a long token holds no short one and is itself found |
| `Marker.LongTokenIsFound` | plugins/cmux/yatagarasu_cmux/marker.py:161-182 | a long token that decodes is found behind any text that ends in a break, whatever tokens in that text do not decode |
| `Marker.ProfilePrefixesHideNothing` | plugins/cmux/yatagarasu_cmux/harness_profiles.py:61-83 | both profile prefixes qualify |
| `StoredTurns.StoredTurnIsProcessed` | plugins/cmux/yatagarasu_cmux/resident.py:128-137 | from frames to the core: in a store that holds, among other workspaces' events, one whole turn whose prompts were typed for the delivery's marker and cut anywhere behind the token, that workspace's two receipts take the delivery to in-session and then to processed/completed |
| `StoredTurns.StoredTurn` | plugins/cmux/yatagarasu_cmux/stream_protocol.py:121-185 | projected, stored and translated back, such events are a turn in order whose prompts carry the marker's delivery, binding and signature |
| `EndToEnd.TurnIsProcessed` | plugins/cmux/yatagarasu_cmux/receipt_producer.py:77-134 | a well-formed turn of observations whose prompt carries the authoritative marker takes a submitted delivery to in-session and then to processed/completed |
| `EndToEnd.BothAccepted` | core/yatagarasu_core/receipts.py:173-234 | the two receipts of such a turn are accepted in order |
| `EndToEnd.SessionReceiptAccepted` | core/yatagarasu_core/receipts.py:48-108 | a fresh, addressed receipt whose session checks pass moves the delivery exactly as its class allows |
| `EndToEnd.ForgedTurnMovesNothing` | core/yatagarasu_core/proofs.py:268-273 | if the wire signature differs from the authoritative one neither emitted receipt changes any delivery, whatever the tables hold |
| `EndToEnd.ForgedChangesNothing` | core/yatagarasu_core/proofs.py:268-273 | a receipt whose prompt shows another signature than its marker moves no delivery and adds no receipt, from any tables |
| `EndToEnd.TypedMarkerIsObserved` | plugins/cmux/yatagarasu_cmux/injector.py:123-126 | what the injector types is what the producer observes |
| `EndToEnd.StoredEventKeepsItsMarker` | plugins/cmux/yatagarasu_cmux/stream_protocol.py:156-162 | with this repository's own markers a stored event translates to the observation of its original frame |

## Left out

- OneBannerPerDelivery: excepts a delivery marked as retired with its banner left; `RetireDelivery` marks exactly those, and `SurvivesExactly` gives the condition on the host's answers.
- RowsFollowTheCursor: requires that boot ids do not recur, which suffices but is not needed; `CallKeepsOrderExactly` and `RunOrderedExactly` are exact.
- CrashesAreInvisible: speaks of one boot's log served without a gap; gap recovery is covered by the accounting of `Run` only for connections that complete.
- ConnectionIsASchedule: compares outboxes without the audit row that a resumed connection adds, and speaks of connections that complete; a call that raises ends the process, which `CrashesAreInvisible` covers as a crash.
- EmittedChainsAreSound: leaves the prompt's binding and signature out, because the emitter deliberately does not check them; `ForgedTurnMovesNothing` shows that the core does.
- RevocationEnds: speaks of submissions that begin after the revocation; one that had read the binding while it was active commits on what it read, as in the code.
- RunCalls: bounds a seat only until a publication is interrupted between activation and enforcement; it is sequential, as the lifecycle is; simultaneous writers on the notification database or on the journal's settlements are not modelled.
- Run: the connection budget is a parameter; snapshot presence after a crash in the middle of a gap replay is not promised by the code and not stated.
- Type checks on arguments (`isinstance` guards) that a typed model cannot violate, and the error messages' texts.
- A `message_preview` that is not text: the projection never stores one, so it is treated as absent.
- Notification ids are numbers that the host never gives twice; a listing gives a banner's id as it is, as an empty text, or not as a text, and never gives it another banner's.
- The desktop's listing is taken to be immediate and complete: a banner created before it is in it. A host that lists late could be asked to create twice.
- A stored binding window whose texts do not parse reads as not covering the moment in a broadcast, where the code raises; registration never stores one.
- The event id order inside the seat cap is an arbitrary total order instead of SQLite's text collation.
- JSON and ISO timestamp parsing and printing, HMAC and SHA-256, and the long marker token's codec: arbitrary functions, with the round-trip laws they need stated where used.
- Sockets, framing, authentication, runtime discovery, the command line, key files, file synchronisation and schema migration.
- The legacy marker and its minting, harness profiles beyond their text prefix and keys, receipt translation, hook-effect validation and redaction: finite tables or single branches.
- Validation of a method registration's field types and the storage encoding of its evidence classes; the set itself is modelled.
