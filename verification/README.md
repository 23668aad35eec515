# Muse ACP adapter: model and proofs

A Dafny model of the parts of the adapter in which most can go wrong, with proofs over every
input, every run or every interleaving:

- **The session fold** (`src/fold.rs`): the state machine that turns Muse item events, deltas,
  completions, history batches and gap refills into notes for the editor. `Fold` gives every
  step as a function on states, `SessionFolds.SessionFold` is the object that updates its
  tables in place and is proved equal to those functions step by step, and `FoldTheorems`
  states what holds over whole runs. Every method of the object has such a contract; the table
  lists those with loops and the whole run.
- **Shared tables and locks**: the responder table raced over by answering threads and the
  shutdown sweep (`Responders`), the compare-and-swap connection limiter (`Slots`), lazy host
  launch, process generations and session routing (`Hosts`). Each is a machine whose steps
  are single atomic accesses, run in any interleaving.
- **Codecs and arithmetic**: HTTP/1.1 request framing (`Http`, `HttpFraming`, `HttpFields`,
  `HttpReader`), path confinement over a file system with symbolic links (`Paths`), unified
  diffs and git path quoting (`Diff`), Base64 (`Base64`), the day count to calendar date
  conversion (`Calendar`), and saturating token accounting (`Usage`).

`dafny verify dfyconfig.toml` checks everything. `Text`, `Options` and `Division` hold
shared helpers.

## How the fold is stated

`Fold.State` carries one log. It records what was sent and, at the place where the fold takes
them, the input facts that explain it (a snapshot, a replayed prefix, a text delta, routed
output, an item passing the settle guard). Properties are monitors over that log that do not
look at the fold's tables: a child session's stage, a task's phase, a terminal's screen, a
message's reading and display. `FoldRuns.RunInv` shows for every run that the tables agree
with every monitor. A run is any sequence of events, in any order, with any contents.

That the recorded facts are the inputs, no more and no less, is proved too (`FoldShapes`): a
snapshot of an unsettled item records that item, a completion settles it, a text delta is
recorded as it came. On top of that stand what must happen, not only what must not: the state
each child generation ends in (`FoldStories`), the cards each item gets (`FoldDecks`), the text
of a message by recursion over the frames of the events (`FoldFrames`), shell output and exit
(`FoldShells`), task reports (`FoldReports`), the workflow listing (`FoldListings`), and streams
of reasoning and tool output (`FoldStreams`). `FoldInduction` holds the induction over runs that
these share.

## Findings

- **A child's transcript can leave before the child is announced.** A subagent completion
  that is held for an anchor announces nothing, but the caller reads the child's transcript
  all the same (`src/main.rs:11738-11755`), and `end_child_read` permits it
  (`src/fold.rs:2009-2016`). `FoldTheorems.EarlyTranscript` is such a run.
  `FoldTheorems.ChildSessions` gives the exact condition over every run: the first session of
  a child gets an update out of turn if and only if a read of it ends before the child was
  announced, and a later generation never does.
- **A history batch can show a reply twice.** When a batch settles a reply that is still open,
  `replay_item` (`src/fold.rs:2870-2891`) sends the settled text under a new message id and
  leaves the role open, while a live completion resends text only if nothing streamed
  (`src/fold.rs:3724-3731`). What streamed before stays, and deltas that arrive later still
  append, since `on_item_delta` does not look at settled items (`src/fold.rs:3464-3469`). The
  text shown is what came before, the settled text, and what came after.
  `FoldTheorems.SettledOverOpen` gives the exact condition over every run: it is the promised
  text if and only if the settled text is empty or nothing ever streamed.
  `FoldTheorems.RepeatedReply` and `FoldTheorems.ResumedReply` are runs that show "abab" for
  "ab", with the deltas before and after the batch.
- **A request received after the shutdown drain can stay open.** `hold` does not look at
  `sealed` (`src/editor.rs:350-354`), so it still inserts. `Responders.HeldTooLate`: such a
  request can be answered if and only if a thread had passed the sealed check for this very id
  when the table was drained. `Responders.LateRequest` is a run in which it never is.
- **A chunk size near the machine word ends the connection's thread.** The program adds the
  body length and the chunk size as machine words (`src/bridge.rs:593-600`).
  `HttpFraming.OversizedChunk`: a chunk beyond the body limit gets status 413, unless the sum
  exceeds 2^64 - 1; then the addition panics or wraps, and if it wraps the buffer shrinks and
  the slice that follows panics. `HttpFraming.OverflowingChunk` is such a body.
- **Printing a diff loses two things only** (`src/diff.rs:86-95`, `src/diff.rs:121-125`): an
  empty range at line 0 prints like one at line 1 (`Diff.EmptyRangeAtZero`), and a modified
  `/dev/null` prints like an added one (`Diff.ModifiedDevNull`). `Diff.PrintsAlike` shows that
  two patches have one text if and only if they differ in nothing else, and
  `Diff.PrintingIsExact` that a printed file reads back as itself if and only if neither occurs.

## Premises

- Muse child ids do not contain `:generation:` (the type `FoldTypes.ChildId`); without it two
  children could share a session id.
- Order behind an anchor is claimed for anchors that are not held themselves: releasing an
  anchor does not release rows that wait for the released rows (`src/fold.rs:3577-3594`).
- `FoldTheorems.TextFromEvents` speaks of messages whose completions name no other item to wait
  for; `FoldTheorems.TextWhileOpen` covers every message until it settles.
- The iteration order of hash maps and sets is the environment's: `Item.holder`, and the
  `order` arguments of `ConnectionLost` and of `Responders.Drain`.

## Model

| member | source | states |
|---|---|---|
| FoldTheorems.ChildSessions | src/fold.rs:1979-2100 | in every run of an AIR client, a session gets an update out of turn (announced once and first, at most one state, no transcript after it) exactly when it is a child's first session and a read of it ended before the child was announced; every held state belongs to a read in flight, on a live session, so none is stranded |
| FoldTheorems.EarlyTranscript | src/main.rs:11738-11755 | a run that breaks the protocol: a completion held for an anchor, and the child's transcript sent before its announcement |
| FoldTheorems.ChildStates | src/fold.rs:2048-2100 | in every run of an AIR client, each generation of a child is announced exactly once when it began, the state told for it is the first one its items report (by status, then by control status), and that state was sent exactly once or is held for a read still in flight; a generation without a report was told no state |
| FoldStories.RunTells | src/fold.rs:2048-2100 | over every run the bookkeeping agrees with the story that the items tell of every child |
| FoldChildren.StageMeaning | src/fold.rs:2048-2100 | what "in turn" means, entry by entry: the announcement is the first entry about a session and the only one, and nothing follows a state |
| FoldChildren.SessionNameInjective | src/fold.rs:1979-1984 | session ids of different children or generations never coincide |
| FoldChildren.NewGenerationKeeps | src/fold.rs:2050-2077 | a settled child that runs again: the held state leaves before the new session is announced |
| FoldChildren.SettleChildKeeps | src/fold.rs:2048-2100 | settling a child keeps the bookkeeping equal to what the log says of every session |
| FoldChildren.EndChildReadKeeps | src/fold.rs:2009-2016 | the end of any read, of any generation, known or not, keeps every session in turn but the first session of a child not announced |
| FoldTheorems.NothingLostOrRepeated | src/fold.rs:3548-3612 | in every run an item passes the settle guard once if it is done and never otherwise, and every completed item is done or held |
| FoldTheorems.EveryCard | src/fold.rs:3596-3958 | in every run the cards sent with an item are exactly those that its snapshots and completion ask for, under one card id (the call id when the first item names one); a settled tool call, and a settled host item with a title, has exactly one final card, the last one, with the item as it settled; a tool call's first card creates it and no later one does |
| FoldDecks.RunPlays | src/fold.rs:3122-3207 | over every run the cards and roles agree with what the items ask for |
| FoldShapes.SnapshotShape | src/fold.rs:3103-3121 | a snapshot records its item, and nothing else, unless the item has settled |
| FoldShapes.CompleteShape | src/fold.rs:3596-3612 | a completion settles its item, and records nothing else, unless the item has settled |
| FoldFrames.EveryItemTaken | src/fold.rs:2761-2868 | what a snapshot, or a batch, shows of an item that does not settle is recorded |
| FoldTheorems.TurnEndSettlesEverything | src/fold.rs:3523-3546 | at the end of a turn nothing is held and every item ever completed has settled exactly once |
| FoldRows.RowsFollowTheirAnchor | src/fold.rs:2761-2806 | in a history batch no row anchored to an item of the batch settles before that item arrived, across any turn boundaries; all settled items of the batch are done at its end and nothing is held |
| FoldRows.AnchorBeforeItsRows | src/fold.rs:2761-2806 | an anchor that a history batch carries as a settled, unanchored row settles in that batch, and every row anchored to it that settles in the batch does so later, across any turn boundaries |
| FoldRows.AnchorSettlesOnArrival | src/fold.rs:3548-3573 | a settled row that waits for no anchor settles when it arrives |
| FoldRows.FlushFrame | src/fold.rs:3531-3546 | a boundary settles exactly the held rows whose anchor is not still to come, keeps the others in order, and loses none |
| FoldRows.ReleaseFrame | src/fold.rs:3577-3594 | releasing an anchor settles exactly the rows held for it |
| FoldRows.FlushSettlesAll | src/fold.rs:3523-3525 | a final flush leaves nothing held and everything completed settled |
| FoldRows.CompleteFrame | src/fold.rs:3596-3612 | a completion settles its own item and no other, and leaves held rows alone |
| FoldRows.StepCovers | src/fold.rs:3548-3594 | every event keeps settled items settled and held rows held or settled |
| FoldReplay.ReplayIsLive | src/fold.rs:2761-2902 | replaying settled, unanchored, non-message rows on a fresh ACP v1 fold without AIR tasks ends in the state, and sends the notes, of live completions |
| FoldReplay.SettledHistoryIsNotLive | src/fold.rs:3596-3958 | from any state and on any version, settled history sends no terminal note and announces no task |
| FoldReplay.SecondReplayIsSilent | src/fold.rs:2761-2902 | replaying a settled history again sends nothing |
| FoldTheorems.TerminalOutputIsBounded | src/fold.rs:2439-2537 | in every run a terminal opens only for a command that ran, then shows chunks, then at most one exit and nothing more; what it shows is the first `max_content()` characters of what was routed to it |
| FoldTheorems.OutputIsFed | src/fold.rs:3424-3449 | in every run on ACP v2 an output delta of a shell that was seen and has not settled is fed to its screen, whole |
| FoldTheorems.ShellsExit | src/fold.rs:2491-2537 | in every run on ACP v2 a shell that settles live after it ran, or whose terminal is open, exits with its output cut to the limit |
| FoldStreams.ToolOutputShown | src/fold.rs:3450-3461 | the output streamed to a tool call that is no shell is shown up to the budget, under its card |
| FoldStreams.ReasoningShown | src/fold.rs:3495-3516 | a reasoning summary that streams in parts is shown as paragraphs with an empty line between them, and its completion shows nothing more |
| FoldStreams.ReasoningWhole | src/fold.rs:3746-3783 | reasoning that never streamed shows its completed text, once |
| FoldTerminals.BudgetShows | src/fold.rs:3430-3449 | the budget arithmetic keeps the shown text equal to the first characters of the concatenated deltas |
| FoldTerminals.FinishTerminalKeeps | src/fold.rs:2491-2537 | finishing a terminal keeps every screen in step with the tables |
| FoldTheorems.MessageText | src/fold.rs:3718-3745 | in every run the text shown for an agent message is prefix plus deltas when there is any, else the completed text once, and for a message that history settled while open the text before, the settled text and the deltas after; a message that settled with text declares its phase exactly once, with the value the item gives, and a cut-off message its mark; neither is sent twice, and the mark never before any text |
| FoldTheorems.TextFromEvents | src/fold.rs:2812-2902 | the text shown is the one defined by recursion over the frames of the events: what a batch carries of an in-flight message when nothing was shown, then the deltas, or the completed text when nothing streamed; over every run in which no completion of the message waits for another item |
| FoldTheorems.TextWhileOpen | src/fold.rs:2838-2852 | over every run, until a message settles it shows exactly what its snapshots, batches and deltas give |
| FoldFrames.RunFollows | src/fold.rs:3464-3494 | over those runs what the fold has taken of a message is what the frames give |
| FoldTheorems.SettledOverOpen | src/fold.rs:2870-2891 | over every run, a message that history settled while open shows the promised text exactly when the settled text is empty or nothing ever streamed |
| FoldTheorems.RepeatedReply | src/fold.rs:2870-2891 | a run that shows the same reply text twice: deltas, then the batch |
| FoldTheorems.ResumedReply | src/fold.rs:3464-3469 | another: the batch, then the deltas |
| FoldTheorems.AsyncTasks | src/fold.rs:1876-1926 | in every run a task is announced once and before any state, no state repeats the one before it, and at most one AIR id stands for any host item |
| FoldTheorems.TasksAreReported | src/fold.rs:1876-1926 | in every run with AIR tasks, a snapshot or live completion of an unsettled shell, backgrounded tool call or workflow announces its task, and a terminal status (completed; failed or rejected; cancelled or timed out) is then the last state told |
| FoldTasks.BackgroundRecordTold | src/fold.rs:1771-1814 | a background-completion record gives an announced task without a state the state it names |
| FoldTasks.SeedTold | src/fold.rs:719-762 | an unknown background row of the task list is announced |
| FoldTasks.PhaseMeaning | src/fold.rs:1876-1926 | what that protocol says, entry by entry |
| FoldTheorems.DisconnectSettlesTasks | src/fold.rs:1841-1861 | after a lost connection every announced task has a state |
| FoldTasks.SettleBackgroundKeeps | src/fold.rs:1771-1814 | a background-completion record sends at most one state, only for an announced task without one, and never changes a reported state |
| FoldTasks.SeedTaskKeeps | src/fold.rs:719-762 | seeding from the task list keeps announcements single and the id mapping one to one |
| FoldTasks.DisconnectKeeps | src/fold.rs:1841-1861 | the sweep gives every walked task a state and keeps reported ones |
| FoldTheorems.SupersededRunsStayGone | src/fold.rs:550-632 | over every run listed and superseded workflow runs are disjoint, and a run superseded at any moment is never listed again |
| FoldTheorems.RevisionsNeverFall | src/fold.rs:571-632 | over every run a listed workflow run that no later or held item ends, resumes or supersedes stays listed, and its revision never falls |
| FoldTheorems.WorkflowListing | src/fold.rs:550-632 | in every run, from observations that include every snapshot, every batch item and every completion that waits for nothing, in order: a run is gone exactly when a run that is not gone itself resumed from it; it is listed exactly when it is not gone and was last observed live; and it shows the highest revision since its last start, the latest among equals |
| FoldListings.ListedMeaning | src/fold.rs:550-632 | the same over any sequence of observations: which runs are remembered as superseded and which are listed |
| FoldListings.ListedBest | src/fold.rs:585-632 | the revision and pause state shown are those of the best observation since the run's last start |
| FoldFlows.RevisionsRise | src/fold.rs:571-632 | while a run stays listed and is not resumed, its revision never falls |
| FoldFlows.RunFlows | src/fold.rs:550-632 | over every run the listing is what a sequence of observations gives, each of an item that the events carry or that was held, and as a completion only where it is one; every snapshot, batch item and completion that waits for nothing is among them, in order |
| FoldRuns.RunInv | src/fold.rs:3103-3958 | every reachable state of every run: rows, children, tasks, terminals, messages and listings agree with the whole log |
| FoldRuns.StepKeeps | src/fold.rs:3103-3958 | every event keeps that agreement |
| Text.Truncate | src/fold.rs:32-50 | display truncation keeps short texts, and cuts long ones to exactly the limit with their own head and tail |
| SessionFolds.HandleAll | src/fold.rs:2761-3958 | the object, given any events, ends in the state of the run and has sent exactly the notes of its log |
| SessionFolds.SessionFold.Handle | src/fold.rs:2761-3958 | one event performs the run's step |
| SessionFolds.SessionFold.ReplayHistoryItems | src/fold.rs:2761-2806 | the loops over a batch, with `upcoming` counting the items still to come, perform the replay function |
| SessionFolds.CountUpcoming | src/fold.rs:2776-2781 | the counting loop yields each id's number of occurrences |
| SessionFolds.CountsPop | src/fold.rs:2783-2801 | the counted ids are exactly those of the items not yet consumed, before and after an item is consumed |
| SessionFolds.SessionFold.FlushAwaitingAnchorUnless | src/fold.rs:3531-3546 | the flush loop settles and keeps the rows the function says, in order |
| SessionFolds.SessionFold.ReleaseAwaitingAnchor | src/fold.rs:3577-3594 | the partition and the release loop |
| SessionFolds.SessionFold.DisconnectTasks | src/fold.rs:1841-1861 | the loop over announced tasks |
| Responders.AnsweredAtMostOnce | src/editor.rs:350-406 | in every interleaving a request is answered at most once, and only if it was received |
| Responders.EveryRequestOnce | src/editor.rs:539-550 | every request received before the drain is answered, or in exactly one thread's hands to be answered, just once: the sweep's when it was still in the table, otherwise the thread's that took it |
| Responders.EveryRequestAnswered | src/editor.rs:539-550 | after any run, a drain and anything more, the threads can finish, and then every request received before the drain has been answered exactly once |
| Responders.SweepFinishes | src/editor.rs:547-549 | a sweep left to run answers every drained request, in order, and ends |
| Responders.HeldTooLate | src/editor.rs:350-377 | a request received after the drain can be answered if and only if some thread had passed the sealed check for this id when the table was drained |
| Responders.LateRequest | src/editor.rs:350-354 | a run in which a request arrives after the drain and is never answered, whatever follows |
| Responders.NextKeeps | src/editor.rs:350-406 | conservation: a received request is in the table, in one hand or answered, exactly once |
| Responders.OneSweepKeeps | src/editor.rs:539-542 | one thread wins the swap, and nothing is swept before it drains |
| Slots.CounterIsExact | src/bridge.rs:147-169 | in every interleaving, spurious failures included, the counter is the number of live slots and never above the limit |
| Slots.RefusedOnlyWhenFull | src/bridge.rs:157-169 | a caller is turned away only if `limit` slots were live at its own last access to the counter |
| Slots.AloneSucceeds | src/bridge.rs:157-169 | while slots are free, a caller left alone gets one after at most one re-read |
| Hosts.LaunchedOncePerClear | src/hosts.rs:172-241 | in every interleaving at most one process of a kind is launched per time it was forgotten, plus one |
| Hosts.EveryCallerGetsIt | src/hosts.rs:195-241 | unless the kind is forgotten, every caller that gets a process gets the only one launched, and it is current |
| Hosts.EveryCallerCanFinish | src/hosts.rs:195-241 | in every interleaving a caller can still be served: once whoever holds the lock is done, its own steps return the process that is then current |
| Hosts.ScriptServes | src/hosts.rs:195-241 | a caller that has the lock, or finds it free, returns the current process of its kind, launches one exactly when there is none, leaves the lock free and disturbs nobody |
| Hosts.StaleForever | src/hosts.rs:244-254 | a process that is no longer current never becomes current again |
| Hosts.Owners.Route | src/hosts.rs:284-321 | skipping the lookup while no session is read-only routes exactly as the owner map says |
| Hosts.Owners.NoteOwner | src/hosts.rs:258-262 | the recorded owner changes |
| Hosts.Owners.LearnOwner | src/hosts.rs:265-271 | only an unknown session is recorded |
| Hosts.Owners.ForgetOwner | src/hosts.rs:280-282 | a deleted session is forgotten |
| HttpFraming.ConnectionReadsBack | src/bridge.rs:389-421 | a kept-alive connection with any sequence of well-formed requests is read as exactly those requests in order |
| HttpFraming.RequestLocal | src/bridge.rs:492-571 | every accepted request is read from its own bytes: whatever follows stays unread and changes nothing |
| HttpFraming.ReadSent | src/bridge.rs:492-571 | a well-formed, admitted request is read back whole |
| HttpFraming.ReadGoodChunks | src/bridge.rs:573-606 | a chunked body is the concatenation of its chunks, in any spelling of sizes, with extensions and trailers |
| HttpFraming.OversizedChunk | src/bridge.rs:593-600 | after any well-formed chunks, a chunk beyond the body limit is answered with 413, unless its size added to the body leaves the machine word: then the thread ends without an answer |
| HttpFraming.OverflowingChunk | src/bridge.rs:593-600 | a body that is not answered |
| HttpFraming.PlainChunk | src/bridge.rs:580-581 | a chunk whose size line is its length in hexadecimal is well formed |
| HttpFraming.PlainLength | src/bridge.rs:557-568 | a request whose first length header holds its body's length in decimal between any blanks, and that names no transfer encoding, is well formed |
| HttpFraming.UsualLength | src/bridge.rs:557-568 | a "Content-Length" header with the body's length between any blanks, among headers that name no other length before it and no encoding, makes the request well formed |
| HttpFraming.UsualChunked | src/bridge.rs:552-556 | a "Transfer-Encoding" header that says chunked, between any blanks, makes a request of well-formed chunks well formed, whatever it says about length |
| HttpFields.LineMeaning | src/bridge.rs:445-468 | a line ends at its newline and all carriage returns before it; over the budget it is refused with 431, and with 400 when it is not UTF-8 |
| HttpFields.NoNewline | src/bridge.rs:445-468 | bytes without a newline: the end of the input, a lost connection, or 431 once they exceed the budget |
| HttpFields.HeadReads | src/bridge.rs:492-529 | every header field, with any blanks around its value, is read as its name in lower case and exactly its value; the head as these and the parts of the request line |
| HttpFields.RefusedFirstLine | src/bridge.rs:505-510 | a request line without exactly two spaces is refused with 400 |
| HttpFields.RefusedVersion | src/bridge.rs:511-513 | another version is refused with 505 |
| HttpFields.RefusedHeader | src/bridge.rs:514-529 | after any good headers, a line without a colon is refused with 400 and a line after the hundredth header with 431 |
| HttpFields.LengthRequest | src/bridge.rs:557-570 | a request with its length in decimal: the request with that many bytes as its body and the rest unread, a lost connection when they are missing, 413 beyond the limit, 400 beyond the machine word |
| HttpFields.MalformedLength | src/bridge.rs:557-560 | a length with anything but digits, after one plus sign at most, is refused with 400 |
| HttpFields.ChunkedRequest | src/bridge.rs:552-556 | a request whose first transfer encoding has the word chunked in any spelling: the request with the chunks in order as its body |
| HttpFields.BodilessRequest | src/bridge.rs:552-570 | without a length and an encoding the body is empty and every byte after the head stays unread |
| HttpFields.RefusedRequest | src/bridge.rs:547-551 | a head that is not admitted leaves its body unread and closes the connection |
| HttpFields.SizeLine | src/bridge.rs:580-581 | a chunk's size line in hexadecimal digits of either case, between any blanks and with any extension, is read as its number |
| HttpFraming.Persistence | src/bridge.rs:538-546 | an HTTP/1.1 connection ends exactly when the first connection header has "close" anywhere in it, an HTTP/1.0 connection exactly unless it has "keep-alive" anywhere in it; without the header this is the default of section 9.3 of RFC 9112 |
| HttpFraming.CloseOption | src/bridge.rs:542-546 | a list of options that names close, in any letter case, ends an HTTP/1.1 connection |
| Http.ReadRequest | src/bridge.rs:492-571 | an accepted request consumes at least a byte, has at most 100 headers and a body within the limit, and a head that is not admitted gets no body and closes |
| Http.ReadChunks | src/bridge.rs:573-606 | the body of an accepted chunked request never exceeds the limit |
| Http.ReadHead | src/bridge.rs:496-529 | a head takes at most 64 KiB and 100 headers |
| Http.ReadLine | src/bridge.rs:445-468 | a line takes at most its budget, and at least a byte |
| HttpReader.Reader.ReadLine | src/bridge.rs:445-468 | the reading and stripping loops read that line and charge the budget |
| HttpReader.Reader.ReadRequestLine | src/bridge.rs:496-504 | the loop over blank lines ends because each spends budget |
| HttpReader.Reader.ReadHeaderLines | src/bridge.rs:514-529 | the header loop |
| HttpReader.Reader.ReadChunked | src/bridge.rs:573-606 | the chunk loop |
| HttpReader.Reader.ReadRequestAdmitting | src/bridge.rs:492-571 | one request read in place |
| HttpReader.Reader.ServeConnection | src/bridge.rs:389-421 | the connection loop |
| HttpReader.ReadBack | src/bridge.rs:389-421 | the loop run on the bytes of well-formed requests returns those requests |
| Paths.AcceptedIsInside | src/bridge.rs:1325-1394 | an accepted path has no `.` or `..`; the place it leads to, existing or to be created, lies under the canonical form of a root and is reached through real directories |
| Paths.JudgeMeaning | src/bridge.rs:1325-1394 | a text is accepted exactly when it is not white space, it or the session's directory is absolute, and its path with the dots resolved leads, through what exists, to a place under the canonical form of some root; every other case has its own error |
| Paths.DotLaws | src/bridge.rs:1342-1354 | `.` stands for nothing, `..` takes back the component before it, at the root it stands for nothing, and a path without dots stays |
| Paths.AcceptedAgain | src/bridge.rs:1325-1394 | the path that the check returns is accepted again as itself |
| Paths.SearchIsWalk | src/bridge.rs:1355-1383 | the backward search for the deepest existing part finds what resolving the path forward reaches, and fails exactly where that fails (dangling links, loops, files used as directories) |
| Paths.CreatedWhereFound | src/bridge.rs:1355-1383 | when the missing components are then created, the path resolves to the location that was checked |
| Paths.ResolvePath | src/bridge.rs:1325-1394 | the three loops return the verdict that the forward walk gives, and accept exactly under the condition above; they terminate |
| Paths.NormalizeIsWalk | src/bridge.rs:1342-1354 | resolving `.` and `..` in the text is what the system does where no link is involved |
| Paths.RelativeIsUnderCwd | src/bridge.rs:1332-1341 | a relative path is judged like the absolute one under the session's directory |
| Diff.UnquoteQuoted | src/diff.rs:63-84 | unquoting a printed path gives the path back, for every byte string |
| Diff.QuotingInjective | src/diff.rs:63-84 | different paths print differently |
| Diff.GitPath | src/diff.rs:63-84 | the loops print that quoting |
| Diff.ReadHunk | src/diff.rs:35-60 | accepts exactly the stored hunks whose lines carry a prefix, stay on one line and match the counts |
| Diff.AcpV2Diff | src/diff.rs:99-143 | yields a diff exactly for documents with a non-empty patch; the text read back gives every file, path, hunk, line and count |
| Diff.ReadPrinted | src/diff.rs:99-143 | a count-driven reader takes any printed patch apart again |
| Diff.PrintsAlike | src/diff.rs:99-143 | two patches have one printed text exactly when they differ only in the starts of empty ranges at 0 or 1 and in whether `/dev/null` counts as added |
| Diff.EmptyRangeAtZero | src/diff.rs:86-95 | two different files, an insertion at line 0 and at line 1, with one printed text |
| Diff.ModifiedDevNull | src/diff.rs:121-125 | two different files, `/dev/null` modified and added, with one printed text |
| Diff.PrintingIsExact | src/diff.rs:86-95 | the printed text of a file reads back as that very file exactly when no empty range starts at 0 and it is not a modified `/dev/null` |
| Usage.Session.RecordTurnLeg | src/acp.rs:563-592 | the kept entries stay the capped sums of the legs that a table keeping every leg holds, and a seventeenth turn pushes out the oldest |
| Usage.Session.TakeTurnUsage | src/acp.rs:595-598 | the taken entry counts every leg kept for the turn |
| Usage.Record | src/acp.rs:505-515 | one more leg: each counter is the exact sum up to 2^64-1 and absent exactly when never reported, one row per model in first-seen order |
| Usage.AddCounts | src/acp.rs:445-459 | saturating addition keeps that, leg by leg |
| Usage.RowsAddUp | src/acp.rs:505-515 | when nothing saturates, model rows and unattributed legs add up to the totals |
| Usage.SumAnyOrder | src/acp.rs:451-459 | the order of the legs does not matter |
| Usage.KeptSinceOpened | src/acp.rs:582-592 | in every session a kept turn holds all its legs since a moment at which it was not kept, and was not taken since |
| Usage.OpenedInOrder | src/acp.rs:582-592 | in every session the kept turns are those opened last and not taken: the table lists them in the order of their openings |
| Usage.OpenedMeaning | src/acp.rs:582-592 | a kept turn was opened by a leg while it was not kept, was not taken since, and holds all its legs from that one on |
| Usage.PushedOut | src/acp.rs:588-591 | a seventeenth turn pushes out exactly the one opened first |
| Usage.NothingForgotten | src/acp.rs:582-592 | with at most sixteen turns, a turn never taken holds all its legs |
| Usage.RunKeeps | src/acp.rs:582-592 | at most sixteen turns are kept, each once |
| Usage.HandleAll | src/acp.rs:563-598 | the object run on any events holds the table of the run |
| Base64.DecodeEncode | src/json.rs:9-30 | decoding the output gives every byte string back |
| Base64.DecodesOnlyEncodings | src/json.rs:9-30 | a strict decoder accepts nothing but the encoder's output |
| Base64.Layout | src/json.rs:9-30 | four characters per three bytes begun, the standard alphabet, and padding as section 4 of RFC 4648 says |
| Base64.B64 | src/json.rs:9-30 | the loop over chunks computes that encoding |
| Calendar.CivilIsDayByDay | src/fold.rs:248-259 | for every day the arithmetic gives the date reached from 1970-01-01 by calendar successors, month and day in range |
| Calendar.NextDay | src/fold.rs:248-259 | day n+1 is the calendar successor of day n |
| Calendar.DatesRise | src/fold.rs:248-259 | later days have later dates |
| Calendar.TimestampReadsBack | src/fold.rs:260-266 | for every instant the timestamp has its separators in place and reads back as that date and time of day, and has the 20 characters of section 5.6 of RFC 3339 exactly while the year has four digits |

## Left out

- Card titles, metadata, locations and raw arguments of notes: functions of the item, which the model's notes carry instead.
- "Create exactly once" for host cards: the program may repeat it, since host cards never become announced.
- Reminder cards, the monitor inbox, editor terminals and calls, stored patch diffs and the subagent control index of the fold: switched off by default or without effect on the notes modelled.
- The children listed for a workflow run, and model retry and foreground-check cards: they add no state that other steps read.
- The random tail of minted ids: a minted id is its counter.
- FoldTheorems.ChildSessions: says nothing about draft-RFD (not AIR) children, whose states may repeat by design.
- FoldTheorems.MessageText: gives no text for an item whose kind the host changes.
- FoldTheorems.EveryCard: gives no cards for an item whose kind the host changes.
- FoldStreams.ReasoningShown: speaks of the deltas of one item between its snapshot and its completion, without other events between them.
- Monitor feeds and compaction updates: modelled, one note for each frame, without a theorem about their contents.
- FoldReplay.ReplayIsLive: states equality for ACP v1; on v2 live shells use terminals and history does not, which `FoldReplay.SettledHistoryIsNotLive` covers.
- Http.ReadRequest: read errors and timeouts other than the end of the input are not modelled; the admission check is a parameter.
- Paths.ResolvePath: the file system does not change between the check and the use, and Windows verbatim paths are not modelled.
- Hosts.EveryCallerGetsIt: restarts that replace a process from outside the lazy launch are not modelled.
- Responders.EveryRequestOnce: request ids are distinct and the connection is live, so an answer handed to the connection counts as sent; outgoing requests and their cancellation are not modelled.
- Usage.Session: the JSON form of a finished turn's usage.
- `bounded` in `src/bridge.rs`: a single cut at a character boundary.
- The JSON parser, the ACP SDK, process launch, timeouts, HTTP responses and tool texts.
