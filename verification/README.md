# A model of the app server's session replication, verified in Dafny

The app server keeps the public history of an agent session, and clients keep a
mirror of it.  Core events and harness actions become history entries and
updates; each update is numbered per session, and sent, held back or dropped
depending on whether a client is attached; the client folds what it receives
into its mirror, refuses gaps, skips what it has seen, takes over whole states
and adds older pages.  Patches are JSON Patch (section 4 of RFC 6902) over JSON
Pointer (section 4 of RFC 6901) with a private `append`; requests and responses
are correlated as in JSON-RPC 2.0 (sections 4 and 5).

This project models that protocol and the state machines around it, and proves
the properties its parts rely on over whole runs.

## How it is built

Classes follow the classes of the server and the client: fields updated in
place, one method per operation, loops where the code loops.  Each method's
contract ties the new state and the result to a function on values.  The
properties are lemmas about those functions: what every run keeps, what undoes
what, what two sides agree on.  Coroutines are modelled as atomic steps between
their suspension points: a turn's task may be cancelled, and other tasks run, at
each of its sends before and after its guarded part, and so with a request that
answers a callback.  What is projected in one go inside the guarded part is told
in one step.  A transport is a sequence of decoded messages in order.

| file | contents |
|---|---|
| `Json`, `Patch`, `Edits` | documents, pointers, operations, what an edit leaves alone; applying and making patches; what each operation leaves at its place |
| `Entries`, `Changes` | history entries, dump and validation; the projector's patches and what they mean |
| `Projection`, `ProjectorFacts`, `ProjectorRuns`, `Actions`, `Finalizing`, `Lifecycles`, `Projector` | events and actions as commands on a history, the invariant, whole runs, what each action makes of the history and when it is refused, how a turn's end closes each entry, what pairs of actions amount to, and the projector class |
| `Client`, `Mirror`, `Paging`, `Reconcile`, `Reporting` | the client's mirror and its class, when it shows a history, pages, events between two states, what the mirror takes and reports |
| `Session`, `Telling`, `Working`, `Router`, `Deliveries`, `Replication`, `Convergence` | the server's side of a session, work and its notes, numbering and attaching, every notification against a log of what was raised, both sides together, that nothing gets stuck |
| `Hazards`, `Interleavings`, `Losses`, `Raising` | what happens outside the conditions: states, pages, callbacks and handoffs out of step, and what follows a refusal; notes and tasks out of order; entries told and not kept; actions that raise |
| `Turns`, `Consulting`, `Steering`, `TurnEnds`, `Verdicts`, `Refining` | turns and answers, how a turn asks, moves and is answered, what is projected while it ends, its end wherever it is cut short, how it is said to have ended, a whole turn as work of its session |
| `Execution`, `RootSession`, `Sessions`, `Staging`, `Shell` | the execution slot, session ids, child sessions, staged roots, shell commands |
| `ClientRpc`, `ServerRpc`, `Streaming`, `History`, `Restored` | request tables on both ends, streamed requests, history from stored messages, what a loaded session shows of each |

## The replication theorem

`Replication.Replicates` speaks of a server, its connection and a client.  Its
runs take eighteen transitions in any order their guards allow: any work on the
session (all nineteen kinds of action, starting, settling and releasing turns,
harness effects and injections), numbering and routing each note on its own,
session handoffs in mid-turn, the steps of attaching with its success, failure
and flush, state reads, clearing, compacting and rewinding, older pages,
callbacks delivered again, turns started on the client's request, lost
connections, and the client taking packets or adopting an answer before the
events it overtook.
After every run, nothing on its way to the client is refused, and a client that
takes all of it shows the server's session, turn, number and history from its
first loaded entry on, and exactly the open callbacks when its window held those
in progress.

`Convergence` adds that nothing gets stuck: from every reachable state a client
in step can catch up and then shows the server exactly, and a client that
attaches, whatever came before, can get in step.

The work that these runs are made of is what the turn controller does:
`Refining.TurnIsWork` shows a whole turn, from start to end, as pieces of work
with the notes it tells, and `Refining.MirrorFollowsTurn` that a mirror follows
it; what the client's user hears of all that is `Reporting.ListenerKnows`.

The runs keep conditions, the guards in `Replication.Next` and `Working.Perform`
and the one queue of raised notes, that the code does not keep all by itself.
For each of these, what happens outside it is proved, and exactly when that does
harm.

- Notes are numbered in the order in which they were projected.  The code numbers
  each in its own task's send, so notes of two tasks can be numbered the other
  way round.  Which pairs may be is `Interleavings.SwappedNumbers`, which notes
  may overtake any number of others `Interleavings.ApartOvertakes`; an answer
  inside the opening of its callback is `Interleavings.AnswerInsideOpening`.
- All notes of an action are raised.  A task cancelled between two of them leaves
  the rest untold, and an entry not announced is never shown
  (`Interleavings.NeverShown`).
- One projector is at work at a time: while an injection is under way there is no
  turn, no other injection and no shell command, although an injection checks
  only at its start that the session is idle
  (`Interleavings.InjectionDuringTurn`).
- A projector goes only after its entries have been settled.  A turn cut short
  while its closing is told, whose projector the next turn replaces, and an
  injection cancelled on its way lose them (`Losses.DroppedIff`).
- Nothing is projected between settling and release at a turn's end, although
  steering can (`Losses.ActedAfterSettling`), and the end is told
  (`Losses.EndUntold`).
- An action does not raise (`Raising.RaisingIsSilent`).
- A compaction ends only after it started (`ProjectorFacts.UnannouncedIsLost`).
- Entry ids are not reused across the session (`Hazards.AnnouncedTwice`).
- A state or a page is taken, and a callback delivered again, when no history
  update is waiting for its number (`Hazards.AnnouncedTwice`,
  `Hazards.ChunkTwice`, `Hazards.DeliveredTooEarly`), and a state or a page
  neither during an injection nor between settling and release at a turn's end
  (`Session.PublicIsTruth`, `Session.DoubledRepeats`).
- Pages are taken in order with the events around them
  (`Hazards.PageOvertakesUpdate`).  Other answers may overtake events, unless the
  answer changes the session: clearing, compacting and rewinding do, and then
  the events they overtake are refused (`Hazards.AnswerOvertakesEvents`), as are
  notes that were still waiting (`Hazards.NotesBehindAnswer`).
- A handoff finds no earlier note waiting for its number
  (`Hazards.NotesBehindHandoff`), and a state taken while attaching finds no
  handoff among the events held back (`Hazards.HeldHandoff`).
- A callback is delivered again only when its entry is loaded
  (`Hazards.DeliveredAgain`); one outside the loaded part goes stale when it is
  closed (`Hazards.UnloadedCallbackGoesStale`).

A refused event ends the client's stream of events if and only if it was the next
one (`Hazards.EndsIffInSequence`).  After one out of sequence the client reads the
session again, and is in step whatever it showed before
(`Hazards.ReadAgainRecovers`).

## Where the code does less than one might expect

- A turn's end gives all it owes if and only if its task is cancelled neither
  before its guarded part nor at a send of its finalization but the last, and
  every call steered in before its entries are settled has its result before that
  too (`TurnEnds.TurnTerminates`).  Cancelled before, it keeps the slot and no
  turn can start; while the closing of its entries is told, they are lost to the
  next turn (`TurnEnds.NextTurnStartsIffEntered`).  What each place leaves is
  `TurnEnds.EndCutShort`.
- A steered call whose result comes only after the turn's entries are settled
  leaves its effect in progress in the history, whatever is projected later
  (`TurnEnds.OpenedTooLate`).
- A request that answers a callback and is cancelled at a send leaves the
  callback's entry complete and its record without an answer
  (`Turns.AnswerRecordedIff`).  While the turn's projector is there, no later
  answer is taken (`Turns.AnswerGivenUp`); when it is gone, one is, and recorded,
  though its waiter is no longer told (`Turns.LaterAnswerRefusedIff`).
- An answered request id can stay in the client's abandoned set for good
  (`ClientRpc.AnsweredAndAbandoned`); the server's set is exact
  (`ServerRpc.Routed`).
- The append rewriting of patches is wrong for a diff that moves what the append
  names (`Patch.AppendAfterInsertGoesWrong`); exactly when it is right is
  `Patch.MakePreservesMeaning`.
- Opening a callback replaces the state of the effect it blocks, so what the
  effect had streamed before is gone after the answer
  (`Lifecycles.CallbackRoundTrip`).
- A repeated release of the slot evicts another owner if the same operation id
  began again in between (`Execution.LateFinishEvicts`); turn ids are fresh,
  teleport operation ids are the client's.
- Every id a session has had routes its active turn if and only if its current
  id is not one it had left (`RootSession.OldIdsRouteIff`); so a handoff back to
  an id it has left loses one, until the session moves on
  (`RootSession.NextHandoffKeepsRoutes`, `RootSession.ReturningIdLosesTheOther`).
- Cutting the history at a message differs from projecting the shorter
  conversation when a later tool result answers an earlier call
  (`History.TruncationCommutes`, `History.LateResultShows`).

## Model

| member | source | states |
|---|---|---|
| `Patch.ApplyJsonPatch` | vibe/app_server/_patch.py:14-25 | operations take effect in order on a copy; the first one that fails rejects the whole patch |
| `Patch.MakeJsonPatch` | vibe/app_server/_patch.py:28-54 | the loop over the diff: a move is refused, a replace of a streaming text that only grew becomes an append, an append path missing from the source is an error |
| `Patch.MakePreservesMeaning` | vibe/app_server/_patch.py:28-77 | the patch with appends passes through the same documents as the diff if and only if no earlier operation changed what an append names |
| `Patch.RewriteExact` | vibe/app_server/_patch.py:40-53 | one rewritten replace equals the original if and only if its pointer still resolves to what it resolved to in the source |
| `Patch.MadePatchReachesTarget` | vibe/app_server/_patch.py:28-54 | a patch made from a correct diff with stable appends takes source to target |
| `Patch.FirstTouchIsStable` | vibe/app_server/_patch.py:35-53 | a check on pointers alone that makes the rewriting safe: every operation before an append stays apart from its pointer |
| `Patch.AppendAfterInsertGoesWrong` | vibe/app_server/_patch.py:40-53 | a diff that inserts a block before rewriting the text of block 0: the made patch ends in another document than the diff |
| `Patch.MadeIs` | vibe/app_server/_patch.py:28-54 | a patch is made if and only if no operation is a move and no streaming text is missing in the source; each operation is in its place, a text that grew sent as what it grew by; otherwise the first that cannot be sent is the error |
| `Edits.AddIs` | vibe/app_server/_patch.py:14-25 | an addition is rejected without a parent that takes it there; otherwise the parent has the value at that member or item, later items moved up by one, and what else it had |
| `Edits.RemoveIs` | vibe/app_server/_patch.py:14-25 | a removal is rejected without the member or item; otherwise that one is gone, later items moved down |
| `Edits.ValueIs` | vibe/app_server/_patch.py:57-77 | a replace, an append and a test succeed exactly where the value is there, is a text, is the same; then it is the new value, the joined text, unchanged |
| `Edits.ElsewhereStays` | vibe/app_server/_patch.py:14-25 | whatever a pointer apart from an operation's resolved to, it still does |
| `Json.EditFrame` | vibe/app_server/_patch.py:57-77 | an edit leaves every pointer apart from its own resolving to what it resolved to, array shifts included |
| `Json.DecimalInjective` | vibe/app_server/_patch.py:57-77 | two reference tokens that name the same array index are the same token |
| `Json.PutIffResolves` | vibe/app_server/_patch.py:57-77 | a replace succeeds exactly where its pointer resolves |
| `Entries.ValidateDump` | vibe/app_server/models.py:649-815 | validating the dump of any well-typed entry gives the entry back |
| `Changes.PatchMeansChange` | vibe/app_server/_projector.py:489-517 | for all ten patches the projector sends, dump, patch and validate is the typed change, and the wire patch is rejected exactly when the change is undefined |
| `Changes.ContentMeans` | vibe/app_server/_projector.py:577-584 | the append to /content/0/text works exactly on a message whose first block is text |
| `Changes.OutputMeans` | vibe/app_server/_projector.py:284-291 | the append to /state/outputText works exactly on effects whose state has output text |
| `Changes.SettleEffectMeans` | vibe/app_server/_projector.py:293-309 | replacing the state and completing the entry are one typed change |
| `Changes.WrongKindRejected` | vibe/app_server/_projector.py:500-511 | a patch of state, callback state or details on an entry of another kind never validates |
| `ProjectorFacts.PatchStep` | vibe/app_server/_projector.py:489-528 | a patch goes through exactly when the entry is known, in progress and the change defined; then that entry alone changes and one update names it; otherwise nothing changes |
| `ProjectorFacts.ProjectKeepsValid` | vibe/app_server/_projector.py:104-151 | after any event or harness action, raising or not, ids are unique, the index is the history by id, and every entry belongs to the session and turn |
| `ProjectorFacts.UpdatesReplay` | vibe/app_server/_projector.py:104-151 | the updates of an action that does not raise, replayed on the history before it, give the history after it |
| `ProjectorFacts.UnannouncedIsLost` | vibe/app_server/_projector.py:654-685 | a compaction end without its start adds an entry its updates do not reproduce |
| `ProjectorFacts.StepReplays` | vibe/app_server/_projector.py:473-528 | each elementary step and its update agree |
| `ProjectorRuns.RunGrows` | vibe/app_server/_projector.py:473-528 | over any run, raising actions included, the history only grows at its end, identities never change and completed entries are frozen |
| `ProjectorRuns.StreamedTextIsConcatenation` | vibe/app_server/_projector.py:574-609 | after any run in which no chunk of a key, or for its entry, raises, the entry holds exactly the chunks of the key, joined in order, whatever else raises |
| `ProjectorRuns.DoReads` | vibe/app_server/_projector.py:574-609 | any action, raising or not, extends a streamed text by its chunk for that text and by nothing else |
| `ProjectorRuns.DoTracks` | vibe/app_server/_projector.py:574-609 | one action extends the text of the id it addresses by its chunk and leaves every other streamed text alone |
| `Finalizing.FinalizeCloses` | vibe/app_server/_projector.py:412-458 | at a turn's end a complete entry stays as it is; an effect in progress keeps title, detail and output and is cancelled with "Turn interrupted" if the turn was, failed with "Turn ended" otherwise; a callback is withdrawn with that reason; any other keeps its body; one update tells of each, in order |
| `Finalizing.FinalizeCompletes` | vibe/app_server/_projector.py:412-458 | finalizing never raises and leaves no entry in progress, from any state a run can reach |
| `Actions.UserMessageIs` | vibe/app_server/_projector.py:541-572 | a user message is added whole and complete; the first text becomes the preview of a session without one, cut at 160 characters |
| `Actions.PreviewIsFirstText` | vibe/app_server/_projector.py:541-572 | over any run the preview of a session without one becomes the start of its first user message with a text, and stays |
| `Actions.ChunkIs` | vibe/app_server/_projector.py:574-609 | the first chunk of a key opens its entry in progress, a later one extends that entry if it is still in progress, and nothing else changes |
| `Actions.CallIs` | vibe/app_server/_projector.py:117-121 | a call completes every streamed text in progress, in both tables, then starts its effect as a start does, or raises without a presentation |
| `Actions.StartIs` | vibe/app_server/_projector.py:248-270 | a new effect runs without output; a known one gets the new detail and keeps everything else |
| `Actions.StreamIs` | vibe/app_server/_projector.py:284-291 | a chunk of output makes the output of a known effect in progress longer in the state it is in; anything else is refused and changes nothing |
| `Actions.CompleteIs` | vibe/app_server/_projector.py:293-309 | a completed effect has the state it is told, and keeps title and detail |
| `Actions.ResultIs` | vibe/app_server/_projector.py:623-636 | the result of a known call settles its effect as cancelled, skipped, failed or finished, as it says, with what the effect had put out |
| `Actions.LoneResultIs` | vibe/app_server/_projector.py:623-636 | the result of a call never seen adds its effect, settled at once; without a presentation it is left running |
| `Actions.NoticeIs` | vibe/app_server/_projector.py:132-148 | a notice is added complete, and a new title told with it |
| `Actions.CompactStartIs` | vibe/app_server/_projector.py:638-652 | a checkpoint in progress with its details |
| `Actions.CompactEndIs` | vibe/app_server/_projector.py:654-685 | the checkpoint is complete, with the new message and details |
| `Actions.LoneCompactEndIs` | vibe/app_server/_projector.py:654-685 | a compaction that was not announced adds its checkpoint complete, and is told as a change of it only |
| `Actions.OpenIs` | vibe/app_server/_projector.py:330-361 | a callback is added open; a known effect in progress that it is about is blocked, anything else known refused, the callback added all the same |
| `Actions.ResolveIs` | vibe/app_server/_projector.py:363-410 | an answer completes its callback; the effect it is about runs on with the output it had while blocked, and one that is over makes the answer refused with the callback complete |
| `Actions.LinksAre` | vibe/app_server/_projector.py:167-237 | a link is made once, moves only from the child it names and is taken away once; the four refusals |
| `Projector.EventProjector.constructor` | vibe/app_server/_projector.py:90-102 | a projector starts empty |
| `Projector.EventProjector.RebindSession` | vibe/app_server/_projector.py:162-165 | every entry and the index get the new session id, tables and order stay |
| `Projector.EventProjector.Add` | vibe/app_server/_projector.py:473-487 | a new entry is appended and announced, a known id refused |
| `Projector.EventProjector.PatchWith` | vibe/app_server/_projector.py:489-528 | the patch path with each of its refusals; on a refusal nothing changes |
| `Projector.EventProjector.CompleteStreamedText` | vibe/app_server/_projector.py:311-328 | the loop that completes the streamed entries in progress, in history order |
| `Projector.EventProjector.FinalizeTurn` | vibe/app_server/_projector.py:412-458 | the loop that closes every entry in progress, in history order; what becomes of each is Finalizing.FinalizeCloses |
| `Projector.EventProjector.UserMessageSeen` | vibe/app_server/_projector.py:541-572 | the message entry, and the preview once |
| `Projector.EventProjector.AssistantChunk` | vibe/app_server/_projector.py:574-593 | first chunk opens an entry, later ones append to it |
| `Projector.EventProjector.ReasoningChunk` | vibe/app_server/_projector.py:595-609 | the same for reasoning |
| `Projector.EventProjector.ToolCalled` | vibe/app_server/_projector.py:117-121 | streamed text is completed before the effect starts; without a presentation the second half raises |
| `Projector.EventProjector.EffectStarted` | vibe/app_server/_projector.py:248-270 | a known effect gets the new detail, an unknown one an entry |
| `Projector.EventProjector.EffectOutput` | vibe/app_server/_projector.py:284-291 | output of an unknown effect is refused |
| `Projector.EventProjector.EffectCompleted` | vibe/app_server/_projector.py:293-309 | completion of an unknown effect is refused |
| `Projector.EventProjector.CompactionStarted` | vibe/app_server/_projector.py:638-652 | the checkpoint entry, remembered for its end |
| `Projector.EventProjector.NoticeSeen` | vibe/app_server/_projector.py:132-148 | a completed notice, and the session update of a new title |
| `Projector.EventProjector.SubagentEffect` | vibe/app_server/_projector.py:226-237 | the effect of a subagent, or which of three reasons there is none |
| `Projector.EventProjector.ToolFinished` | vibe/app_server/_projector.py:623-636 | a result settles its effect, creating it first when the call was never seen |
| `Projector.EventProjector.CompactionCompleted` | vibe/app_server/_projector.py:654-685 | the checkpoint is completed; without a start it is added without an announcement |
| `Projector.EventProjector.CallbackOpened` | vibe/app_server/_projector.py:330-361 | the callback entry, and its related entry blocked |
| `Projector.EventProjector.CallbackResolved` | vibe/app_server/_projector.py:363-410 | the callback answered and its related effect running again with its output text |
| `Projector.EventProjector.SubagentLinked` | vibe/app_server/_projector.py:167-186 | link, repeated link and link of another child |
| `Projector.EventProjector.SubagentReplaced` | vibe/app_server/_projector.py:188-205 | the link moves only from the child it names |
| `Projector.EventProjector.SubagentUnlinked` | vibe/app_server/_projector.py:207-224 | unlinking, nothing to unlink, and another child |
| `Projector.EventProjector.Take` | vibe/app_server/_projector.py:104-151 | any action against the value-level projection: a raising one keeps its changes and loses its updates |
| `Client.ClientProjection.constructor` | vibe/app_server/events.py:209-212 | a mirror starts from a public state |
| `Client.ClientProjection.ReplaceState` | vibe/app_server/events.py:341-344 | the mirror is the given state, its index and its watermark |
| `Client.ClientProjection.ConsumeNote` | vibe/app_server/events.py:251-344 | every verdict on a notification: handoff and snapshot checks, bad id, other session, already seen, gap, applied; a refused one leaves the mirror as it was |
| `Client.ClientProjection.ApplyEvent` | vibe/app_server/events.py:268-292 | what each event does to the mirror and what it reports |
| `Client.ClientProjection.AddEntryTo` | vibe/app_server/events.py:346-359 | duplicates are refused, a new open callback is listed once |
| `Client.ClientProjection.UpdateEntryWith` | vibe/app_server/events.py:361-382 | unknown ignored, completed refused, otherwise replaced; a callback leaves the list and returns only if still open |
| `Client.ClientProjection.ReplaceEntry` | vibe/app_server/events.py:384-389 | the first entry with the id is replaced, all others stay |
| `Client.ClientProjection.PrependHistoryPage` | vibe/app_server/events.py:221-235 | new entries go in front in page order, known ones must agree; on refusal only the index has grown |
| `Client.ClientProjection.EnsureCallback` | vibe/app_server/events.py:237-241 | added exactly when the entry is unknown |
| `Client.ClientProjection.BeginTurnWith` | vibe/app_server/events.py:243-249 | the turn of another session is refused |
| `Reporting.TakenIff` | vibe/app_server/events.py:251-339 | a notification is taken if and only if it is the handoff from the session shown, or of the session shown with a number seen or the next one and a content that fits |
| `Reporting.OtherTakenIff` | vibe/app_server/events.py:218-249 | a turn of another session and a page that repeats or contradicts an entry are refused, every other answer is taken |
| `Reporting.ConsumedIsReported` | vibe/app_server/events.py:251-397 | nothing is told if and only if the number was seen or the note changes an entry that is not loaded; what is told has the entry before, the one after and the patch, or the last entry of the history now, or the turn or state now shown |
| `Reporting.ListenerKnows` | vibe/app_server/events.py:251-397 | a user who only listens, to the reports and the answers it asked for, meets no duplicate, stale version or failing patch over any stream, and always knows what the mirror shows |
| `Reporting.ListedOnce` | vibe/app_server/events.py:341-382 | whatever a mirror takes, callbacks delivered again included, it never lists a callback twice |
| `Mirror.AddMirrored` | vibe/app_server/events.py:346-359 | an announced entry keeps the mirror a window on the history, open callbacks included |
| `Mirror.UpdateMirrored` | vibe/app_server/events.py:361-389 | an update keeps the mirror a window on the history whether or not the entry is in the window |
| `Mirror.CallbacksFollow` | vibe/app_server/events.py:374-381 | the list of open callbacks follows a callback entry through its versions |
| `Mirror.StepMirrored` | vibe/app_server/_projector.py:473-539 | one step of the projector, told as its notification, is taken without refusal |
| `Telling.ActionMirrored` | vibe/app_server/_turns.py:649-665 | the updates of any action that does not raise are taken in order, and the mirror of the history before becomes one of the history after |
| `Telling.ActionKeepsLive` | vibe/app_server/_projector.py:104-151 | a live projector stays in good order: no completed callback is open, streaming tables name existing messages |
| `Telling.CommandsTidy` | vibe/app_server/_projector.py:311-328 | no action completes a callback without closing it |
| `Paging.LatestPage` | vibe/app_server/_state.py:143-154 | the newest page is the end of the history and its cursor says whether there is more |
| `Paging.PageBefore` | vibe/app_server/_state.py:137-154 | the page before an entry ends right before it and starts limit entries earlier |
| `Paging.PageAfter` | vibe/app_server/_state.py:123-154 | the page behind an entry begins right after it, and its cursors say what is before and behind it |
| `Paging.UnknownCursor` | vibe/app_server/_state.py:123-154 | a cursor that names no entry gives an empty page |
| `Paging.OfTurnIs` | vibe/app_server/_state.py:123-154 | pages of a turn are made of exactly its entries, in the order of the history |
| `Paging.TurnIsPaged` | vibe/app_server/_state.py:123-154 | pages of a turn are pages of its entries |
| `Paging.PageMirrored` | vibe/app_server/events.py:221-235 | prepending the page before the first loaded entry widens the window by exactly that page |
| `Paging.CursorMoves` | vibe/acp/agent.py:465-466 | a page never has the cursor it was asked with |
| `Paging.LoadCompleteHistory` | vibe/acp/agent.py:460-466 | for every limit and every window the loop ends, rebuilds the whole history without gap or repetition, and never meets the error |
| `Session.PublicIsTruth` | vibe/app_server/_turns.py:171-179 | the public history is what clients are told if and only if the projector is empty, or the turn is not between settling and release and no injection is under way |
| `Session.DoubledRepeats` | vibe/app_server/_turns.py:514-527 | a state taken between settling and release shows every entry of the turn twice |
| `Session.StateMirrors` | vibe/app_server/_root_session.py:113-133 | a client that adopts a public state mirrors the history from the first entry of its page |
| `Session.HandOverKeepsOrder` | vibe/app_server/_turns.py:682-684 | a new session id changes nothing else: histories, index and tables stay in good order |
| `Session.PatchAfterRebind` | vibe/app_server/_turns.py:667-720 | a patch of an entry opened before a handoff has the same effect after it, the session id apart |
| `Session.LiveOpens` | vibe/app_server/_turns.py:181-189 | the open callbacks of the whole history are those of the turn |
| `Working.WorkKeepsOrder` | vibe/app_server/_turns.py:191-229 | starting, projecting, settling and releasing keep the session in good order |
| `Working.WorkIsTold` | vibe/app_server/_turns.py:500-539 | a mirror before any piece of work takes its notes and mirrors the session after it |
| `Router.AppServer.constructor` | vibe/app_server/server.py:196-222 | no number given, nobody attached, nothing held back |
| `Router.AppServer.SequenceNotification` | vibe/app_server/server.py:1185-1194 | the next number of the session, also inside a carried state |
| `Router.AppServer.NotifyClient` | vibe/app_server/server.py:1059-1071 | only disabled notifications that are no events are dropped unnumbered; the rest is numbered, then held, dropped or sent |
| `Router.AppServer.BeginAttachment` | vibe/app_server/server.py:576-579 | attaching, not attached, nothing held back |
| `Router.AppServer.FinishAttachment` | vibe/app_server/server.py:581-593 | the flush loop with notifications raised during its sends, and the failed first attach |
| `Router.AppServer.SendBatch` | vibe/app_server/server.py:588-592 | a batch is sent whole while later notifications are held |
| `Router.FlushHolds` | vibe/app_server/server.py:588-593 | flushing hands out everything held and everything raised meanwhile, in order |
| `Router.AttachedReceivesAll` | vibe/app_server/server.py:549-593 | over any run of notifications, attaches, failures and detaches, an attached client has received, beyond its snapshot at w, exactly w+1, w+2, ... up to the watermark, in order |
| `Deliveries.EachIsDelivered` | vibe/app_server/server.py:549-593 | over any run, what an attached client has received since its attach began is, one for one and in order, what was raised since, but for the child's own and what is both disabled and no event; each packet is its notification, an event under the number after those its session had |
| `Replication.StepKeeps` | vibe/app_server/server.py:549-593 | every one of eighteen transitions keeps client and server in step |
| `Replication.EmitKeeps` | vibe/app_server/server.py:1059-1071 | numbering and routing a note changes nothing a client will end up with |
| `Replication.HandingKeeps` | vibe/app_server/_turns.py:667-720 | a session handoff in mid-turn keeps both sides in step under the new id and its restarted numbers |
| `Replication.TakeKeeps` | vibe/app_server/_handler.py:601-616 | a state taken while attaching, after notes already held back, still leads to the server's history |
| `Replication.ReplacingKeeps` | vibe/app_server/_root_session.py:161-279 | clearing, compacting and rewinding replace the client's state by the cut history with its checkpoint |
| `Replication.ReplacingLeaves` | vibe/app_server/_root_session.py:161-279 | the settled entries up to the cut, under the new session id, then the checkpoint; no turn, no callback |
| `Replication.ListKeeps` | vibe/app_server/_handler.py:779-793 | an older page widens the window in step with the stream |
| `Replication.RedeliverKeeps` | vibe/app_server/server.py:1150-1160 | a callback delivered again changes no mirror that has loaded it |
| `Replication.StartingKeeps` | vibe/app_server/session.py:289-307 | the response to a turn start and the announcement of the turn lead to the same turn |
| `Replication.AdoptKeeps` | vibe/app_server/connection.py:64-76 | an answer may overtake events the client has not taken yet |
| `Replication.NeverRefused` | vibe/app_server/events.py:251-266 | in step, the next packet is never refused |
| `Replication.Replicates` | vibe/app_server/events.py:251-397 | after any run nothing on its way is refused, and a client that takes it all has the server's session, turn, number and history from its first loaded entry on, and the open callbacks if its window held them |
| `Replication.QuietMirrorIsExact` | vibe/app_server/events.py:251-397 | with nothing on its way the client shows the server as it is |
| `Convergence.CatchesUp` | vibe/app_server/server.py:581-593 | from every reachable state with a client attached or being flushed, numbering, flushing and delivering ends, is never refused, and leaves the client exact |
| `Convergence.AttachingCatchesUp` | vibe/app_server/server.py:549-593 | whatever came before, a client that attaches while the public history is the truth can get exactly in step, with as many entries as it asked for |
| `Convergence.FlushAll` | vibe/app_server/server.py:588-593 | a flush that is under way comes to its end |
| `Lifecycles.OpeningBlocks` | vibe/app_server/_projector.py:330-361 | opening a callback about a running effect adds it open and blocks that effect; nothing else changes |
| `Lifecycles.AnsweringUnblocks` | vibe/app_server/_projector.py:363-410 | answering completes the callback and lets its effect run on; nothing else changes |
| `Lifecycles.CallbackRoundTrip` | vibe/app_server/_projector.py:330-410 | opened and answered, a callback leaves its effect as it was if and only if the effect had no output yet |
| `Lifecycles.EffectKeepsItsOutput` | vibe/app_server/_projector.py:284-309 | an effect that streams any chunks and gets its result is complete with all chunks joined as its output; no other entry changes |
| `Lifecycles.LinkRoundTrip` | vibe/app_server/_projector.py:167-224 | linking and then unlinking a child gives the entry back, stamp apart |
| `Lifecycles.ReplaceMovesLink` | vibe/app_server/_projector.py:188-205 | replacing a child moves the link and nothing else |
| `Hazards.AnnouncedTwice` | vibe/app_server/_turns.py:658-665 | an entry that a state already shows, or a reused id, is refused if and only if its id is loaded |
| `Hazards.ChunkTwice` | vibe/app_server/_turns.py:658-665 | a chunk a state already shows is appended again, harmless only when empty |
| `Hazards.PageOvertakesUpdate` | vibe/app_server/events.py:221-235 | an update overtaken by a page that shows its effect is refused if and only if its entry is on the page and complete or the patch does not apply again, and harmless if and only if its entry is not on the page or the patch leaves it as it is |
| `Hazards.UnloadedCallbackGoesStale` | vibe/app_server/events.py:361-366 | the closing of a callback reaches the list of open callbacks if and only if its entry is loaded; otherwise it stays listed |
| `Hazards.DeliveredAgain` | vibe/app_server/events.py:237-241 | a callback delivered again leaves the history right if and only if its entry is loaded; otherwise it is added at the end |
| `Hazards.DeliveredTooEarly` | vibe/app_server/events.py:237-241 | a callback delivered before its announcement makes the client refuse the announcement |
| `Hazards.NotesBehindHandoff` | vibe/app_server/events.py:251-344 | notes of the old session numbered behind a handoff are taken if and only if there are none |
| `Hazards.HeldHandoff` | vibe/app_server/server.py:576-593 | with a handoff among the events held back, they are taken if and only if the state was taken before it |
| `Hazards.AnswerOvertakesEvents` | vibe/app_server/events.py:251-344 | events overtaken by an answer are taken after it if and only if it did not change the session |
| `Hazards.NotesBehindAnswer` | vibe/app_server/events.py:251-344 | notes of the old session numbered behind an answer that changes it are taken if and only if there are none |
| `Hazards.EndsIffInSequence` | vibe/app_server/session.py:517-530 | a refused event ends the stream of events if and only if it was the next one; otherwise the session is read again |
| `Hazards.ReadAgainRecovers` | vibe/app_server/session.py:557-566 | after an event out of sequence, whatever the client showed, the session read again shows the history, and earlier events still on their way are skipped |
| `Interleavings.EditsShow` | vibe/app_server/events.py:346-397 | what a client makes of announced and changed entries, refusals included |
| `Interleavings.SwappedNumbers` | vibe/app_server/server.py:1059-1071 | two notes numbered against their order of projection leave the client right if and only if they are not two additions, the change does not touch an entry just added, and two changes of one entry commute |
| `Interleavings.AnswerInsideOpening` | vibe/app_server/_turns.py:637-647 | an answer numbered between the two notes of its callback leaves the client with a blocked effect that runs on the server |
| `Interleavings.ApartOvertakes` | vibe/app_server/server.py:1059-1071 | a note may overtake any number of notes about other entries, additions not among them when it is one |
| `Interleavings.InjectionDuringTurn` | vibe/app_server/_turns.py:318-350 | two tasks with projectors of their own may overlap, with any changes between their entries, if and only if the one settled first announces all its entries before the other |
| `Interleavings.Merged` | vibe/app_server/_turns.py:318-350 | what two such tasks tell, in any order, gives the entries of both, each as its own projector has it, woven in the order of their announcements |
| `Losses.DroppedIff` | vibe/app_server/_turns.py:191-214 | a client in step with a projector that is dropped unsettled shows what the server keeps if and only if the projector had no entry, and the next turn does not bring them back |
| `Losses.ActedAfterSettling` | vibe/app_server/_turns.py:514-527 | what is projected between settling and release is told and taken but not kept: the client shows what the server keeps if and only if no entry was added and no loaded one changed |
| `Losses.EndUntold` | vibe/app_server/_turns.py:527-539 | a turn over without being told leaves the client with another status until the next turn is announced |
| `Interleavings.NeverShown` | vibe/app_server/_turns.py:658-665 | an entry whose announcement was lost is never shown, whatever is told later |
| `Raising.RaisingIsSilent` | vibe/app_server/_projector.py:104-151 | an action that raises hands out nothing; it has changed an entry if and only if it is a call with a streamed text unfinished, the result of a call never seen, a new callback, or an answer to a callback in progress |
| `Execution.SessionExecution.constructor` | vibe/app_server/_execution.py:58-59 | the slot starts free |
| `Execution.SessionExecution.Begin` | vibe/app_server/_execution.py:65-74 | a taken slot is refused and kept |
| `Execution.SessionExecution.Finish` | vibe/app_server/_execution.py:76-78 | only the owner's own slot is released |
| `Execution.SlotIsHolders` | vibe/app_server/_execution.py:57-78 | the slot is an owner's exactly while it began on a free slot and has not finished since |
| `Execution.OneHolder` | vibe/app_server/_execution.py:57-78 | no two owners hold the slot together |
| `Execution.LateFinishEvicts` | vibe/app_server/_turns.py:478-530 | a repeated finish evicts somebody if and only if the same owner has begun again in between |
| `Execution.FreshIdsAreSafe` | vibe/app_server/_vibe_code.py:500-557 | with ids that are not reused no repeated finish of a turn or teleport evicts anybody |
| `Turns.TurnController.Start` | vibe/app_server/_turns.py:191-214 | a running task or a taken slot refuses the start and changes nothing |
| `Turns.TurnController.AnswerCallback` | vibe/app_server/_turns.py:352-372 | an answer up to its first send: not found, locked, repeated, conflicting, wrong type, refused by the projector or begun, with the state each leaves |
| `Turns.TurnController.AnswerProceeds` | vibe/app_server/_turns.py:369-377 | from one send of an answer to the next; after the last it is recorded and its waiter released |
| `Turns.TurnController.AnswerAborts` | vibe/app_server/_turns.py:356-372 | an answer cancelled at a send releases the lock and records nothing |
| `Turns.TurnController.RejectCallback` | vibe/app_server/_turns.py:379-383 | the record is settled for the core and its waiter released |
| `Turns.TurnController.CancelCallbacks` | vibe/app_server/_turns.py:810-822 | every record the core has not settled is rejected |
| `Turns.TurnController.HandleInput` | vibe/app_server/_turns.py:541-647 | events, callbacks, session changes and other tasks in the middle of a turn |
| `Turns.TurnController.Send` | vibe/app_server/_turns.py:508-512 | notes handed over one by one, with other tasks and a cancellation between them |
| `Turns.TurnController.Announce` | vibe/app_server/_turns.py:421-429 | what comes before the guarded part, cut short at any send |
| `Turns.TurnController.FinalizeTurn` | vibe/app_server/_turns.py:500-539 | closing, settling, leaving and releasing, cut short at any send |
| `Turns.TurnController.RunGuarded` | vibe/app_server/_turns.py:433-485 | the guarded part of a turn's task, and what follows it in any case |
| `Turns.TurnController.RunTurn` | vibe/app_server/_turns.py:410-485 | a turn's whole task, wherever it is cancelled |
| `TurnEnds.TurnTerminates` | vibe/app_server/_turns.py:410-539 | whatever a turn sees, its entries are settled and complete, nobody waits for a callback, there is no active turn, the slot is free and the end is told if and only if its task is cancelled neither before its guarded part nor at a send of its finalization but the last, and every call steered in before its entries are settled has its result before that |
| `Steering.CompleteIffEnded` | vibe/app_server/_turns.py:508-514 | after the sends of the closing the entries are complete if and only if every call projected there by other tasks has its result there |
| `Steering.LateOpens` | vibe/app_server/_turns.py:294-310 | what each action of another task does to the calls that are open |
| `TurnEnds.EndCutShort` | vibe/app_server/_turns.py:500-539 | what a finalization leaves wherever it is cut short: entries lost to the history, entries shown twice, or an end that is not told |
| `TurnEnds.DoesSteady` | vibe/app_server/_turns.py:242-400 | what other tasks do leaves the turn, the settled history and the slot alone, and nobody of them tells that a turn begins or is over |
| `TurnEnds.OpenedTooLate` | vibe/app_server/_turns.py:508-514 | a call with no result before the entries are settled leaves its effect in progress in the history, whatever is projected later |
| `TurnEnds.StartHolds` | vibe/app_server/_turns.py:191-214 | a started turn holds what its end releases |
| `TurnEnds.NextTurnStartsIffEntered` | vibe/app_server/_turns.py:410-539 | the next turn can start if and only if the last was not cancelled before its guarded part, and it finds the entries settled if and only if the closing of them was told |
| `Verdicts.EndIsTold` | vibe/app_server/_turns.py:410-539 | a task tells of its own turn only, that it begins unless cancelled before, and that it is over if and only if it goes through; failed if and only if an input stopped it or its core raised, interrupted if and only if cancelled unstopped, done otherwise |
| `Verdicts.GoesOnIff` | vibe/app_server/_turns.py:541-665 | an input stops the turn if and only if its projection raises, its callback cannot be asked, or the callback it waited for was rejected |
| `Verdicts.EntriesMatchStatus` | vibe/app_server/_turns.py:500-539 | the turn's entries are settled as closed for its last status, whatever other tasks do: an effect in progress ends cancelled if and only if the turn was interrupted |
| `Consulting.TurnOwnsEntries` | vibe/app_server/_turns.py:191-229 | a turn starts if and only if no task runs and the slot is free; then it and every entry of its projector are of its id and of the session it last moved to |
| `Consulting.MoveIs` | vibe/app_server/_turns.py:667-720 | a new session id reaches the settled entries, the turn's and the turn, and nothing else |
| `Consulting.AskIs` | vibe/app_server/_turns.py:541-647 | a callback that is asked waits for an answer of its kind and has its open entry behind the others; one that cannot be asked leaves nobody waiting |
| `Consulting.RejectingIs` | vibe/app_server/_turns.py:810-822 | rejecting turns away who waits and keeps an answer that has come |
| `Consulting.AnswerIs` | vibe/app_server/_turns.py:352-372 | what becomes of an answer: exactly when it is unknown, locked, repeated, conflicting, refused by the projector or begun |
| `Consulting.AnswersFit` | vibe/app_server/_turns.py:352-377 | over any run no approval is answered like a question, nor a question like an approval |
| `Consulting.AnswerGoesThrough` | vibe/app_server/_turns.py:369-377 | an answer tells its notes in order and then the status, is recorded, releases who waits, and the turn goes on if and only if the callback was not rejected |
| `Refining.TurnIsWork` | vibe/app_server/_turns.py:410-539 | a turn nobody disturbs does and tells exactly its work: opening, what it projects, closing, settling, release |
| `Refining.MirrorFollowsTurn` | vibe/app_server/_turns.py:410-539 | whoever mirrors the session before such a turn takes all it tells and mirrors the session after it, how it ended included |
| `Turns.AnswerRecordedIff` | vibe/app_server/_turns.py:352-377 | while its turn runs, an answer that has begun is recorded if and only if its request goes on through all its sends |
| `Turns.AnswerGivenUp` | vibe/app_server/_turns.py:352-377 | an answer given up at a send is not recorded while its turn runs, and every later one is refused and changes nothing |
| `Turns.LaterAnswerRefusedIff` | vibe/app_server/_turns.py:352-377 | a record without an answer refuses a later one of its kind if and only if the projector that completed its entry is still there; afterwards it is recorded, its waiter no longer told |
| `Turns.AnswerIsFinal` | vibe/app_server/_turns.py:352-377 | an accepted answer stays the answer for good; the same again is a repetition, another a conflict, neither changes anything |
| `ClientRpc.AppServerClient.constructor` | vibe/app_server/client.py:49-68 | nothing pending |
| `ClientRpc.AppServerClient.OpenRequest` | vibe/app_server/client.py:108-113 | a new id with an unset future |
| `ClientRpc.AppServerClient.DispatchResponse` | vibe/app_server/client.py:213-243 | cancelled, abandoned, mismatched or delivered with the number of messages received so far |
| `ClientRpc.AppServerClient.FinishRequest` | vibe/app_server/client.py:129-134 | a sent and cancelled request is remembered |
| `ClientRpc.AppServerClient.FailPending` | vibe/app_server/client.py:202-206 | every pending future that is not done fails |
| `ClientRpc.AppServerClient.Close` | vibe/app_server/client.py:167-181 | nobody waits, nothing is remembered |
| `ClientRpc.AppServerClient.PutIncoming` | vibe/app_server/client.py:245-249 | messages are numbered as received |
| `ClientRpc.AppServerClient.ProcessOne` | vibe/app_server/client.py:160-165 | the oldest message counts as processed when handled |
| `ClientRpc.Correlated` | vibe/app_server/client.py:100-134 | against a peer that answers each id at most once no response is a mismatch, every completed request has its own response, and closing leaves nobody waiting |
| `ClientRpc.AnsweredAndAbandoned` | vibe/app_server/client.py:129-131 | an answered id stays remembered for good if and only if its response came between the cancellation and the end of the coroutine |
| `ClientRpc.OvertakenResponse` | vibe/app_server/client.py:217-220 | such a run exists |
| `ClientRpc.MarkIsReceived` | vibe/app_server/client.py:213-249 | the mark on a completed request is the number of messages received before its response |
| `ClientRpc.MismatchIff` | vibe/app_server/client.py:213-243 | a response is a mismatch if and only if nobody waits for its id and it was not given up; no other request changes |
| `ClientRpc.ClosingFailsAll` | vibe/app_server/client.py:167-206 | closing fails every request that waits and changes no other |
| `Streaming.FinishEventQueue` | vibe/app_server/_streaming.py:18-23 | whatever was queued, the terminal event alone remains |
| `Streaming.StreamUntilComplete` | vibe/app_server/_streaming.py:26-54 | however events arrive, what is yielded and what is left are the queue and the arrivals, in order; one event a round while there is one; it finishes if and only if the request is complete and the queue empty, and no later than that |
| `Streaming.StreamIsComplete` | vibe/app_server/_streaming.py:57-75 | a finished stream has yielded, once and in order, all events of the messages received before the response |
| `Streaming.FinishedHasAll` | vibe/app_server/_streaming.py:57-75 | over the steps alone: a finished stream has had its response and has yielded all events that arrived before it, once and in order |
| `Streaming.StepKeeps` | vibe/app_server/client.py:151-165 | every routed event is yielded, in hand or queued, in order, at every step |
| `ServerRpc.RequestTables.OpenRequest` | vibe/app_server/server.py:1113-1124 | an id is drawn in any case; without an attached client the request is gone |
| `ServerRpc.RequestTables.DeliverCallback` | vibe/app_server/server.py:1086-1097 | a delivery gets its own id, only for an attached client |
| `ServerRpc.RequestTables.HandleResponse` | vibe/app_server/server.py:1006-1042 | a response completes, is discarded, acknowledges or mismatches |
| `ServerRpc.RequestTables.GiveUp` | vibe/app_server/server.py:1135-1143 | a sent request still waited for is remembered as given up |
| `ServerRpc.RequestTables.MarkCallbackAnswered` | vibe/app_server/server.py:1145-1148 | every delivery of the callback is marked, no other |
| `ServerRpc.RequestTables.DetachConnection` | vibe/app_server/server.py:524-529 | a lost connection fails who waits and empties all tables |
| `ServerRpc.Routed` | vibe/app_server/server.py:1006-1057 | an id is in at most one table; the given-up table is exactly the sent, cancelled and unanswered requests of this connection; a response resolves the one table that holds its id and no other |
| `ServerRpc.DeliveriesAre` | vibe/app_server/server.py:1086-1097 | a delivery that waits is the callback sent under its id, marked answered if and only if it was answered since |
| `ServerRpc.WaitsOnlyAttached` | vibe/app_server/server.py:1113-1143 | a request without a client fails at once; a lost connection fails who waits, empties the tables and keeps the answers that came |
| `History.ProjectMessageHistory` | vibe/app_server/_projection.py:444-465 | the loop over the stored messages |
| `History.HistoryUserMessageIndex` | vibe/app_server/_projection.py:626-632 | the first user message, not injected, that has the entry's id |
| `Restored.HistoryShows` | vibe/app_server/_projection.py:444-776 | a loaded session shows, in order and without a gap, exactly what each stored message stands for: nothing, a shell, a user's blocks, or reasoning, content and calls, and each call in the state the last result for it says, or cancelled without one |
| `Restored.MadeUpIds` | vibe/app_server/_projection.py:541-624 | an id made up for an entry names the place of its message in decimal digits, so no two messages get the same |
| `History.FromAt` | vibe/app_server/_projection.py:590-619 | an entry of earlier messages changes only by the last later result that answers its call |
| `History.TruncationCommutes` | vibe/app_server/_projection.py:444-619 | cutting the full history at a user message gives the projection of the messages before it if and only if later results change no earlier call, and the cut is found if and only if no earlier entry has the id |
| `History.RewindMayCut` | vibe/app_server/_handler.py:724-761 | cutting the public history, entries projected since loading included, at a stored user message leaves what projecting the messages before it gives if and only if no earlier entry has its id and no later stored result changes an earlier call |
| `History.RewindKeepsLoaded` | vibe/app_server/_handler.py:724-761 | cutting it at a message that came since keeps what was loaded whole if and only if no loaded entry has its id |
| `History.LateResultShows` | vibe/app_server/_projection.py:614-619 | a result behind the cut makes the two differ |
| `Reconcile.ReconcileSnapshot` | vibe/app_server/events.py:124-168 | the events between two states, in order |
| `Reconcile.UpdateReachesCurrent` | vibe/app_server/events.py:148-158 | an update's patch takes the prior version of the entry to the current one |
| `Reconcile.EventsReachCurrent` | vibe/app_server/events.py:140-158 | applying the events to the known entries meets no duplicate, no stale version and no failing patch |
| `Reconcile.SnapshotReconciled` | vibe/app_server/events.py:124-158 | the events between two states turn the entries of the first into those of the second |
| `Reporting.TurnReconciled` | vibe/app_server/events.py:160-168 | the turn is told last, if and only if there is one and it is another; whoever takes the events behind the first knows it |
| `Sessions.SessionRuntimeRegistry.Rename` | vibe/app_server/_sessions.py:137-139 | every registered child of the old id follows, no other |
| `Sessions.SessionRuntimeRegistry.RunChild` | vibe/app_server/_sessions.py:261-264 | a child is registered in both tables before its start |
| `Sessions.SessionRuntimeRegistry.RollBackChild` | vibe/app_server/_sessions.py:271-273 | a failed start takes it out of both, if it is still there |
| `Sessions.RollbackTakesOne` | vibe/app_server/_sessions.py:260-290 | whatever came while a start was under way, its rollback takes out that key and changes nothing else |
| `Sessions.SessionRuntimeRegistry.HandoffActiveTurn` | vibe/app_server/_sessions.py:121-127 | unknown, unchanged and already registered ids are refused; otherwise the handoff waits for the parent |
| `Sessions.SessionRuntimeRegistry.HandoffGoesOn` | vibe/app_server/_sessions.py:129-139 | one key moves, or none if the child is gone by then |
| `Sessions.SessionRuntimeRegistry.HandoffRoot` | vibe/app_server/_sessions.py:106-109 | children of the root follow it |
| `Sessions.SessionRuntimeRegistry.RestoreChildren` | vibe/app_server/_sessions.py:206-243 | only the restored children are registered |
| `Sessions.SessionRuntimeRegistry.CloseChildren` | vibe/app_server/_sessions.py:366-369 | both tables are emptied |
| `Sessions.ChildHandoffMovesOneKey` | vibe/app_server/_sessions.py:121-139 | whatever came while a handoff waited, exactly one key moves in both tables, the children of the old id follow and no other parent changes, or nothing changes if the child is gone |
| `Sessions.RootHandoffFollowed` | vibe/app_server/_sessions.py:106-109 | no key moves and exactly the root's children change parent |
| `Sessions.RegistryHolds` | vibe/app_server/_sessions.py:206-290 | over any run, with anything between the halves of a handoff or of a start, both tables have equal keys, each key is its runtime's current id and no child's parent is an id that is gone |
| `Sessions.RunIs` | vibe/app_server/_sessions.py:261-264 | a child is found under its id with its parent and its link |
| `Sessions.HandoffBeginsIff` | vibe/app_server/_sessions.py:121-127 | a handoff begins if and only if its child is registered and gets another id that no child has |
| `Sessions.LinksStay` | vibe/app_server/_sessions.py:121-290 | over any run each registered child keeps the runtime and the link it was registered with |
| `Sessions.RestoredAre` | vibe/app_server/_sessions.py:206-243 | a restore registers exactly the children it is given; after a close there is none and waiting handoffs change nothing |
| `RootSession.RootSessionCoordinator.Attach` | vibe/app_server/_root_session.py:85-86 | the given session is the attached one |
| `RootSession.RootSessionCoordinator.ReplaceFromCore` | vibe/app_server/_root_session.py:103-106 | earlier handoffs are forgotten |
| `RootSession.RootSessionCoordinator.BeginHandoff` | vibe/app_server/_root_session.py:281-290 | the attachment follows and the old id points to the new |
| `RootSession.RootSessionCoordinator.ResolveHandoff` | vibe/app_server/_root_session.py:292-297 | the loop ends on every table, cyclic ones included |
| `RootSession.RootSessionCoordinator.RoutesActiveTurn` | vibe/app_server/_root_session.py:94-101 | the current id, or an old one that leads to it while attached |
| `RootSession.OldIdsRoute` | vibe/app_server/_root_session.py:94-101 | after any chain of handoffs through new ids the session is still attached and every id it ever had routes its turn |
| `RootSession.OldIdsRouteIff` | vibe/app_server/_root_session.py:94-101 | after any chain of handoffs, ids that come back included, every id the session has had routes its turn if and only if its current id is not one it had left |
| `RootSession.NextHandoffKeepsRoutes` | vibe/app_server/_root_session.py:281-297 | a handoff keeps every id routing if and only if its new id is not one the session had left |
| `RootSession.ReturningIdLosesTheOther` | vibe/app_server/_root_session.py:292-297 | the shortest chain that loses one: back to the first id |
| `RootSession.RoutesExactly` | vibe/app_server/_root_session.py:94-101 | after any chain of handoffs through new ids a turn is routed by an id if and only if the session is attached and the id is its current one, or one it had and the turn is the current session's |
| `RootSession.ForgottenIdsDoNotRoute` | vibe/app_server/_root_session.py:103-106 | with its handoffs forgotten a session is found by its current id only |
| `Staging.HarnessProcess.StageRoot` | vibe/app_server/_runtime.py:439-452 | a closed process closes the root and refuses; otherwise it is staged and a superseded one closed |
| `Staging.HarnessProcess.ClaimStagedRoot` | vibe/app_server/_runtime.py:529-533 | a closed process refuses; a claimed root is no longer staged |
| `Staging.HarnessProcess.Close` | vibe/app_server/_runtime.py:454-465 | each staged root is closed once and none is left |
| `Staging.EveryRootOnce` | vibe/app_server/_runtime.py:439-470 | under any interleaving every root is staged, claimed or closed, only one of these, and never closed twice |
| `Staging.StagedIsLatest` | vibe/app_server/_runtime.py:439-533 | a claim gives the root staged last for its id, once; staging closes the root it takes the place of, or on a closed process its own, and no other |
| `Shell.ShellController.Begin` | vibe/app_server/_shell.py:131-136 | an id in use is refused |
| `Shell.ShellController.Spawned` | vibe/app_server/_shell.py:144-155 | a process whose interrupt came before it is killed |
| `Shell.ShellController.Interrupt` | vibe/app_server/_shell.py:193-199 | accepted exactly for an operation under way |
| `Shell.ShellController.Finish` | vibe/app_server/_shell.py:169-191 | the report, and no trace of the operation |
| `Shell.ShellController.Close` | vibe/app_server/_shell.py:201-203 | every operation under way is interrupted |
| `Shell.FlagIsAccepted` | vibe/app_server/_shell.py:193-199 | the flag is set exactly when an interrupt was accepted since the operation began |
| `Shell.NoInterruptLost` | vibe/app_server/_shell.py:128-203 | a run that returns reports an interruption, with exit code 1, if and only if one was accepted, and its id can be used afresh |

## Left out

- Session title, preview, model, agent and statistics: session and statistics events carry a number and a session id only, so applying their patches is not modelled.
- The details of effects, callbacks, checkpoints and notices, attachments and resources are opaque JSON; validation checks the members of each entry kind, not the schemas inside the details, and members with defaults are always present.
- Durations, clocks and fresh ids: each action gets one time and one id as parameters.
- JSON Pointer escapes and JSON text: pointers are lists of unescaped tokens. The library that makes diffs is a parameter; where a correct diff is needed the lemma says so.
- Client.ClientProjection.ApplyEvent: session and statistics events change no record, as the record is left out.
- Projector.EventProjector: the five id dictionaries are one map keyed by table and key; the dictionary of entries has no order of its own, the history's order stands for it.
- Turns.TurnController: holds its projector as a value, not as a shared object; closing and resetting the controller, waiting for a turn and the telemetry of mentions are not modelled, and what the core does with a settled request is left to it.
- Turns.TurnController.HandleInput: an event of the turn, the opening of a callback and a session change are one step each with the notes they give.
- Refining.TurnIsWork: turns in which no other task acts and that stay in their session; with other tasks at work what holds is TurnEnds, Verdicts and Interleavings.
- Refining.MirrorFollowsTurn: as Refining.TurnIsWork.
- TurnEnds.TurnTerminates: before the entries are settled, other tasks project user messages, notices, calls and results with their presentation, and changes of effects; calls draw new ids. They stream no text and open no callback.
- Working.WorkIsTold: actions between settling and release of a turn are not among the work; what they would do is Losses.ActedAfterSettling.
- Replication.Replicates: the conditions above; runs outside them are the subject of Hazards, Interleavings, Losses and Raising. Requests other than attaching are answered while no attach is in progress. Switching the server to another session begins a new run.
- Replication.StepKeeps: as Replication.Replicates.
- Replication.EmitKeeps: one queue stands for the notes of all tasks, as in Replication.Replicates.
- Replication.ListKeeps: pages are asked for before the part the client was last given, not before a cursor of its own choice.
- Replication.RedeliverKeeps: only callbacks whose entry is loaded; the others are Hazards.DeliveredAgain.
- Paging.LoadCompleteHistory: the history stays as it is while the loop runs; pages between events are Replication.ListKeeps.
- Reconcile.ReconcileSnapshot: the event for a changed session record is left out with the record.
- Reconcile.SnapshotReconciled: entries of the first state that the second does not have are not announced by the code, and stay known.
- History.RewindKeepsLoaded: what was projected since loading is kept as it is, not compared with what projecting its stored messages would give.
- ClientRpc.Correlated: the failure path of a lost transport is the same as closing; errors in a response are bodies like any other.
- ServerRpc.Routed: what an acknowledgement that was not accepted does to its callback is part of the turn, not of the tables.
- Sessions.RegistryHolds: persistence, linking of effects and deletion of saved sessions around a child's run are its success or failure only. Nothing runs in a child whose start is under way.
- Staging.EveryRootOnce: errors while closing a runtime are not modelled.
- Shell.NoInterruptLost: the output streams and the killing of processes are not modelled; an exit stands for both.
- Transports, request dispatch by method name, schemas of requests, accounts, workspace trust, worktrees, project links, MCP, scheduling and rendering.
