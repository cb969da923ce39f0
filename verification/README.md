# Terminal coding agent: transcript, native loop, callback monitors, corrections and links

This project models the stateful parts of a terminal coding agent and proves what they promise.
`dafny verify dfyconfig.toml` checks all of it.

- **Transcript and chat** (`Utf8`, `Characters`, `Wrapping`, `Retention`, `Highlighting`, `RowIndex`, `IndexUpdates`,
  `Transcript`, `Folding`, `ChatRows`, `ChatRetention`, `ChatUpdates`, `Chat`, `ChatAnchors`, `ScrollRail`).
  A two-level index of soft-wrapped rows that is updated as text streams in, trimmed to limits, folded, and
  addressed by anchors. Each fast path is proved against a plain counterpart: wrapping from scratch, all rows
  laid end to end, one colouring pass, feeding one character at a time, a list of blocks without an index.
- **Streaming output** (`Utf8`, `BashOutput`). Lossy UTF-8 decoding over two interleaved pipes equals decoding
  of the whole streams.
- **Native model and tool loop** (`Conversation`, `Compaction`, `Alignment`, `Commands`, `CallResults`, `Delivery`,
  `Turn`, `TurnEnds`, `Course`, `NativeLoop`, `Assembly`).
  A schedule of moments stands for everything outside of a session: commands, tool and plugin outcomes, receipts,
  failures, and its end stands for a crash. The loop, its settling and its restoring are proved for every schedule: state and
  end of a turn are a function of it, and laws about runs are proved of the notes a session leaves.
- **Callback monitors** (`CodexCallbacks`, `ClaudeCallbacks`, `ModelSwitch`). Flag machines that accept exactly the
  traces of a grammar, with identities that are never replayed.
- **Commands, corrections and drafts** (`Corrections`, `Frames`, `Session`, `Drafts`). Permits, replay of frames that came
  before an acknowledgment, an automaton of a session that says what becomes of a submitted draft, and the loop that follows it.
- **Hard links** (`Links`, `LinkPolicy`). Two worklists over a file tree and the decision which names stay writable.

Objects of the program that change in place are classes here; ordered maps with consecutive keys are sequences
in key order. Text is a sequence of bytes. Grapheme clusters and their widths, the syntax parser, and the plugins
are parameters or outcomes that may be anything; for clusters one law is assumed, which `Wrapping.LeftContextIsLawful`
shows to be met by every rule that decides by what stands to the left.

## Where the code does less than it might seem to promise

- A response whose calls are refused after it has joined the history (its admission cannot be settled, a delivered
  context cannot be completed, or tools are disabled) leaves calls that nobody will answer, and the turn still saves
  a checkpoint. `Alignment.RefusedCallIsForgotten` is an instance; `Alignment.ResponseKeepsAlignment` and
  `NativeLoop.RunsStayAligned` say that nothing else does it.
- A tool may start after a correction has been admitted, if the correction arrives between the last look at the queue
  and the first poll of the tool: `Commands.ToolStartsLateIff` says exactly for which schedules,
  `Commands.ToolStartsAfterCorrection` is one. No other tool of the response does
  (`Commands.NoToolIsChosenAfterCorrection`).
- More than 32 corrections may wait while a batch is being delivered, as in the run
  `Deliveries.MoreThanCapacityWaits`. `Commands.CrowdsIff` says exactly when a command brings this about. Never do more
  than 64 wait, nor more than 32 while no batch is being delivered (`NativeLoop.NativeSession.WaitingIsBounded`).
- A correction that has been delivered may be compacted into a summary before any request has held it, as in the run
  `Deliveries.FirstCorrectionIsForgotten`. It survives if and only if it stands behind the cut or is what the developer
  said last (`Courses.CompactionHolds`, `Courses.RequestHoldsAfterCompaction`).
- A batch callback that no plugin handles needs no acknowledgment before the next callback
  (`ClaudeCallbacks.QuietBatchIsNotAcknowledged`); it is the only callback that does not
  (`ClaudeCallbacks.CallbackFollowsIff`, `ClaudeCallbacks.CallbackIsAcknowledged`).
- A draft that was accepted is dropped if the start of its turn cannot be published, as in the schedule
  `Sessions.AcceptedDraftMayBeDropped`, and only then (`Drafts.SessionOwner.Take`, `Drafts.PublishedIff`).
- A frame that is kept before the acknowledgment is checked for its addresses only; one that starts or ends a turn
  without naming it stops the turn when it is replayed (`Frames.CorrectionTurn.Replay`), and nothing else does.
- On a rail of height 0 the thumb has one cell all the same (`ScrollRails.ThumbInside`).
- In the Codex monitor a completed turn may be reported again, and after a blocked Stop the next Stop may come at once;
  both are part of the grammar.

## Model

| member | source | states |
|---|---|---|
| Utf8.FitsBegins | src/tools.rs:1526-1534 | the byte-range test for an unfinished character is exact: bytes pass it if and only if some continuation makes them one well-formed UTF-8 character (section 4 of RFC 3629) |
| Utf8.UnitIsUnit | src/tools.rs:1518-1535 | the piece taken from ill-formed bytes is the longest beginning of some character, and it is the only such piece, so a replacement stands for a maximal subpart (section 3.9 of the Unicode Standard) |
| Utf8.LossyIsValid | src/tools.rs:1509-1543 | whole-stream lossy decoding always yields well-formed UTF-8, whatever the bytes |
| Utf8.LossyKeepsStrings | src/tools.rs:1519-1522 | bytes that are already well formed are kept unchanged |
| Utf8.SettledSplits | src/tools.rs:1514-1537 | what a decoder may emit early never has to be taken back: the settled text of two pieces is that of the first followed by that of its carry with the second |
| Utf8.LossyIsSettledAndCarry | src/tools.rs:1536-1541 | the lossy text of a stream is what is settled and one replacement for a carry that the end cuts off |
| Utf8.Utf8Decoder.Decode | src/tools.rs:1514-1543 | one call settles exactly what pending and new bytes together settle; at most three bytes stay pending, and none after the end of the stream |
| Utf8.PartitionIndependence | src/tools.rs:1509-1543 | for every way of cutting a stream into reads, the texts joined with the last call at the end are the lossy decoding of the whole stream |
| Utf8.LossyFinishes | src/tools.rs:1538-1541 | at the end of the stream the pending bytes give at most one replacement character |
| BashOutput.Collect | src/tools.rs:1405-1442 | for any interleaving of the two pipes the text tagged with one stream is the lossy decoding of exactly that stream's bytes; the output is all tagged text in order; it succeeds if and only if both pipes end within 1 MiB in all |
| Wrapping.LeftContextIsLawful | src/transcript.rs:42-49 | clusters decided by what stands to their left keep the one law that is assumed: a cluster that ended before the end of the text is unchanged by appending (section 3.1.1 of UAX #29) |
| Wrapping.RowsIncreasing | src/transcript.rs:41-49 | row starts begin at 0, ascend strictly and lie inside the text |
| Wrapping.RowsAreGreedy | src/transcript.rs:41-49 | an independent description of the wrap: every row but one of a single cluster fits the width, and the first cluster of the next row would not have fitted |
| Wrapping.RowsRestart | src/transcript.rs:29-40 | wrapping grown text again from the second-to-last row of the earlier wrap gives the row starts of a wrap from scratch |
| IndexUpdates.Reflow | src/transcript.rs:28-52 | the incremental wrap of a line equals one from scratch at any width, and looks only at the bytes from the second-to-last row on when only text has been appended |
| Retention.FeedSplits | src/transcript.rs:96-120 | what is kept does not depend on how the input is split into calls |
| Retention.RetainedIsSuffix | src/transcript.rs:96-192 | the kept lines joined by line ends are a suffix of the sanitised input, a proper one exactly when the transcript has expired, and within both limits |
| Characters.EncodeSays | src/transcript.rs:102-112 | the bytes a character is kept as are one well-formed UTF-8 sequence, and read by the bit layout of section 3 of RFC 3629 they say exactly that character |
| Characters.WellFormedIsEncoded | src/transcript.rs:102-112 | every well-formed sequence is the bytes of exactly the character whose value its bits say |
| Characters.SanitisedShows | src/transcript.rs:102-112 | read back as characters, sanitised text shows four spaces for a tab, U+FFFD for any other control character but a line end, and every other character as itself |
| Characters.RetainedCharacters | src/transcript.rs:96-192 | the kept lines are the last characters shown of what was given; all of them if and only if the transcript has not expired |
| Retention.TrimDropsOnlyWhatItMust | src/transcript.rs:163-192 | no whole line goes while the lines from it on are within the limits, and a single line that is too long loses no more than up to the first character boundary that fits |
| Retention.TrimKeepsLimits | src/transcript.rs:163-192 | trimming meets both limits and leaves at least one line |
| Retention.TrimIsSuffix | src/transcript.rs:163-192 | trimming keeps a suffix of the text and drops something if and only if a limit was exceeded |
| Retention.TrimThenAppend | src/transcript.rs:122-136 | trimming between two fragments of one line changes nothing in the end |
| Retention.AddTextSplits | src/transcript.rs:115-119 | two fragments of a line are as good as one, although limits are enforced after each |
| Highlighting.MergedIsOrdered | src/highlight.rs:106-125 | the ends of the merged colour ranges ascend, none lies behind the parsed text and the last is its end |
| Highlighting.MergedKeepsStyles | src/highlight.rs:106-125 | merging neighbours of one style changes the style of no byte |
| Highlighting.Colour | src/highlight.rs:64-126 | the loop over a line produces the colours and the parser state of its specification, with fences opened and closed and the bounds respected |
| Highlighting.PlainPass | src/highlight.rs:46-57 | plain text never gets a colour, however long the pass |
| Highlighting.FenceMeans | src/highlight.rs:65-71 | a line may be a fence if and only if it starts, behind white space, with at least three equal backticks or tildes; all of them count |
| Highlighting.FenceChanges | src/highlight.rs:64-91 | in Markdown a fence opens where none is open, and closes only with the same marker, at least as long and with nothing behind it; elsewhere no line opens or closes one |
| Highlighting.BoundsHold | src/highlight.rs:92-107 | a line of code is parsed if and only if a parser is at work and neither 8 KiB for the line nor 256 KiB or 4096 lines since the code began are passed; otherwise it has no colours, nor has any line behind it |
| RowIndex.RowCountIsAllRows | src/transcript.rs:250-252 | the counted rows are the rows of all lines laid end to end |
| RowIndex.RoundTrip | src/transcript.rs:318-343 | the anchor taken from any retained row leads back to that row |
| RowIndex.AnchorShowsItsByte | src/transcript.rs:318-331 | an anchor resolves to the row whose byte range contains its byte, at its place among all rows |
| RowIndex.ByteStays | src/transcript.rs:163-192 | a byte that has not been dropped is at the place its anchor names, whatever has been appended or trimmed since |
| RowIndex.AnchorSurvives | src/transcript.rs:318-343 | an unexpired anchor resolves after any appends, trims and resizes to the row whose range contains its byte |
| RowIndex.ExpiredAnchor | src/transcript.rs:318-331 | an anchor whose line has expired resolves to the first row that is left, one behind all lines to the last |
| IndexUpdates.GrowLast | src/transcript.rs:122-136 | appending to the last line leaves the index of the lines before it current |
| IndexUpdates.DropFirst | src/transcript.rs:168-174 | dropping the oldest line with its row entry leaves the index of the rest current |
| IndexUpdates.ForgetRows | src/transcript.rs:212-218 | cutting the row entries at the first changed line leaves an index a layout can continue, with the next row where the rows before it end |
| IndexUpdates.LayOne | src/transcript.rs:219-225 | laying out one more line extends the part of the index that is as from scratch |
| Transcripts.Transcript.constructor | src/transcript.rs:81-86 | a new transcript is empty, keeps nothing and is consistent |
| Transcripts.Transcript.TrimToLimits | src/transcript.rs:163-192 | the loop ends; it keeps what the specification of trimming keeps, latches the expiry if and only if a limit was exceeded, and anchors stay with their bytes |
| Transcripts.Transcript.Append | src/transcript.rs:96-120 | after fragments of any size the lines kept and the expiry are those of feeding the characters one by one; counters are true sums within their limits; anchors stay with their bytes |
| Transcripts.Transcript.Layout | src/transcript.rs:196-226 | starts are consecutive by row count and each line's rows are those of one wrap from scratch; colours are those of one pass while nothing has expired; an unchanged transcript is not looked at |
| Transcripts.Transcript.Highlight | src/transcript.rs:228-248 | colouring from the first changed line with the saved parser states changes nothing but colours and leaves them current |
| Transcripts.Transcript.StyledRows | src/transcript.rs:262-302 | the rows returned are exactly that slice of all rows laid end to end, and every byte of them has the style its line's colours give it there, or none where they give none |
| Transcripts.RowsOfLine | src/transcript.rs:271-299 | the rows of one line show exactly its text from one row start to the next, byte by byte in the style of the line's colours |
| Transcripts.SpansOf | src/transcript.rs:277-293 | one row is cut into spans at the ends of colour ranges: the spans joined are the row, and each byte has the style of the range it lies in |
| Folding.DrawsBlockRows | src/chat.rs:99-146 | every local row is drawn as the unindexed description of the block says: header, all text or six rows, a count and two rows, gap |
| Folding.LocalRoundTrip | src/chat.rs:82-114 | the place taken from any row of a block is in that row, folded or not |
| Folding.HiddenAnchor | src/chat.rs:82-98 | a body anchor that a fold hides is shown as the fold row, and at its own row again once the block is expanded |
| Folding.ShownAnchor | src/chat.rs:82-98 | a body anchor the preview shows keeps its row in the preview |
| ChatRows.CellsAreAllRows | src/chat.rs:290-320 | the index covers exactly the rows of all blocks laid end to end |
| ChatRows.ChatRoundTrip | src/chat.rs:344-367 | row_of(at_row(r)) is r for every retained row, in the compact and in the full view |
| ChatRows.RowIsInBlock | src/chat.rs:358-367 | the entry found for a retained row is that of the block the row lies in |
| ChatRows.Window | src/chat.rs:394-413 | the rows shown are exactly the slice of all blocks' rows from the top row on, as many as the view is high or as there are |
| ChatRows.TopIsInView | src/chat.rs:385-399 | the top row is retained, and the view is full unless everything is shown |
| ChatRows.ScrollMoves | src/chat.rs:371-384 | scrolling moves the top row by exactly what is asked, up or down, from any anchor, but not above the oldest row or below the newest view |
| ChatRows.ExpiredBlock | src/chat.rs:344-357 | an anchor whose block has expired resolves to the first row that is left, one behind all blocks to the last |
| ScrollRails.ThumbInside | src/terminal.rs:75-95 | the thumb fits the rail if and only if the rail has any height, and always has one cell: on a rail of height 0 it does not fit |
| ScrollRails.TravelFits | src/terminal.rs:75-95 | where there is something to scroll, the thumb never travels further than the text |
| ScrollRails.ThumbIsShare | src/terminal.rs:75-95 | the thumb has the share of the rail that the view has of the text, rounded down, but at least one cell and at most the rail |
| ScrollRails.ThumbEnds | src/terminal.rs:75-95 | the drawn thumb stays inside the rail and reaches its two ends for the two ends of the text |
| ScrollRails.DragRange | src/terminal.rs:96-106 | the position of a drag is monotone in the row, lies inside the text and reaches both of its ends when there is travel |
| ScrollRails.CellRoundTrip | src/terminal.rs:75-106 | drawing the thumb for the position of a cell puts it at that cell or one above |
| ScrollRails.DragScrollsExactly | src/terminal.rs:342-348 | dragging in an unchanged chat scrolls to exactly the position the rail names |
| ChatRetention.LimitsHold | src/chat.rs:266-288 | after limits are enforced both sums are within bounds, the newest block is there, blocks went only from the front and no block went that did not have to, and only a block left alone lost text |
| ChatRetention.TrimPostFits | src/chat.rs:276-286 | the allowance of a block that is alone brings the chat within its limits at once, so the loop ends; it trims exactly when the chat was over |
| ChatRetention.LabelFits | src/chat.rs:186-190 | a title of any length leaves at least one byte of allowance for text |
| ChatRetention.RunIsFaithful | src/chat.rs:184-288 | over any sequence of operations every retained text is the end of what was given to its block since it was last replaced, all of it exactly while that text has not expired; keys are consecutive |
| ChatRetention.UnexpiredIsWhole | src/chat.rs:184-288 | while the chat has not expired every block begun is there with all its text |
| ChatUpdates.SumsChange | src/chat.rs:214-244 | taking a block's charge off and charging for its new state keeps the counters true sums, and never goes below zero |
| ChatUpdates.Change | src/chat.rs:214-264 | a change in one block keeps counters and keys, and the index is current up to it |
| ChatUpdates.Pop | src/chat.rs:269-275 | the oldest block goes with its row entry, and the rest of the index stays current |
| ChatUpdates.LayingStart | src/chat.rs:301-308 | the row at which a layout resumes is where the blocks before the first changed one end, also when dirty blocks have expired |
| ChatUpdates.BlocksSurviveTransitive | src/chat.rs:184-320 | keeping bytes under their anchors carries over from operation to operation |
| Chats.Chat.Begin | src/chat.rs:184-208 | as the specification of the operation says for every state, with a fresh transcript; anchors stay |
| Chats.Chat.Append | src/chat.rs:214-229 | the text of just that block grows as if fed alone, then limits apply; an unknown key changes nothing; anchors stay |
| Chats.Chat.Replace | src/chat.rs:231-244 | the text of just that block is as if it had been given nothing before; anchors in other blocks stay |
| Chats.Chat.Heading | src/chat.rs:246-260 | role and bounded title of just that block change; anchors stay |
| Chats.Chat.EnforceLimits | src/chat.rs:266-288 | the loop ends with what the specification of limits keeps, and latches the expiry if and only if a limit was exceeded |
| Chats.Chat.Layout | src/chat.rs:290-320 | afterwards the index is that of laying out every block from scratch at this width and fold; nothing is wrapped again that has not changed, neither in an unchanged chat nor after folding |
| Chats.Chat.Toggle | src/chat.rs:332-335 | folding changes neither texts nor what they have cached |
| ChatAnchors.AnchorKeepsItsByte | src/chat.rs:344-357 | an anchor taken at any time resolves, in any later layout where its byte is still there, to a retained row that shows the byte, or to the fold row that hides it |
| Conversations.ClosedIsPaired | src/adapters/anthropic.rs:142-163 | the calls a history leaves open are none if and only if every message with calls is followed at once by one message holding their results in call order and results stand nowhere else |
| Conversations.MergedResults | src/adapters/anthropic.rs:155-162 | results that arrive one at a time stay in one message and answer the next open calls |
| Conversations.ResultsTogether | src/adapters/anthropic.rs:155-162 | answers that come one after another are as good as answers that come together |
| Compactions.CompactedIsPaired | src/native/compaction.rs:50-127 | what compaction keeps of a well-formed conversation is well formed: it cuts only where every call had its result |
| Compactions.OpenIsWaiting | src/native/compaction.rs:51-105 | the set of calls kept while validating whole units is the set of calls the conversation leaves open |
| Alignment.ResponseKeepsAlignment | src/native.rs:405-441 | after a response the calls unanswered are those pending if and only if it has no call, or its admission is settled, its context is completed and tools are enabled |
| Alignment.RefusedCallIsForgotten | src/native.rs:411-440 | a concrete response whose admission is not settled: its call is in the history, is not pending, and the next prompt makes the conversation ill formed |
| Alignment.StandingMeans | src/native.rs:125-139 | what the kept flag says: aligned while it holds; once it does not, never again, and compaction refuses |
| Alignment.AnswersStand | src/native.rs:437-513 | answering the first pending calls in order keeps exactly the others open |
| Alignment.CallsStand | src/native.rs:431-441 | new calls are open exactly if they become pending at once |
| Commands.SubmissionIsAnswered | src/native.rs:655-669 | a submission is answered once; it is accepted if and only if it is no control and fewer than 32 corrections wait, and what is accepted and heard is queued at the end |
| Commands.OthersAreNotAnswered | src/native.rs:635-654 | no other command is answered, and only a prompt can be admitted without an answer; the queue stays within its capacity |
| Commands.ToolStartsLateIff | src/native.rs:444-468 | for every schedule: an awaited tool starts if and only if its first poll comes before any command that ends the turn and before a notice that fails; and it starts after a correction has been admitted if and only if, moreover, there is room in the queue and a text for the model arrives in front of that poll |
| Commands.ToolStartsAfterCorrection | src/native.rs:444-468 | a concrete schedule of that kind |
| Commands.NoToolIsChosenAfterCorrection | src/native.rs:444-460 | no tool is chosen after an admission until the model has been asked again, so of a response at most the one chosen before can start late |
| CallResults.CallIsAnswered | src/native.rs:443-513 | over the notes of any run: a call is answered as superseded if and only if a correction had been admitted since the request, or asked for by a plugin, when its turn came; every other answer is the tool's own: it was chosen at that turn, no other call was answered between, and the result has the success its future came back with |
| Turns.CorrectionComesFirst | src/native.rs:443-460 | commands that are there when the turn of a call comes are taken first; if a correction waits then, every call that is still answered is superseded, and all are unless the turn ends |
| Turns.PluginComesFirst | src/native.rs:500-510 | behind a call for which a plugin asks for a correction every other call is superseded |
| Commands.CrowdsIff | src/native.rs:635-669 | a command makes more than 32 corrections wait if and only if it admits a text while queue and batch being delivered together hold at least 32; without a batch none does, and never do more than 64 wait |
| Deliveries.MoreThanCapacityWaits | src/native.rs:343-359 | a concrete run: 32 submissions are queued and taken as a batch, and while the hooks of the first are awaited one more is queued, so that 33 wait |
| Deliveries.AtMostTwiceWaits | src/native.rs:343-359 | whatever happens while a batch is delivered, at most 64 corrections wait, and at most 32 when it has been delivered |
| Compactions.CompactionKeeps | src/native/compaction.rs:37-110 | a message is kept at its place, counted from the end, if and only if it does not stand in front of the third boundary from the end; one that stands nowhere else and is not put in front is lost otherwise |
| Compactions.LastTwoStay | src/native/compaction.rs:99-106 | of texts said one after another exactly the last two are behind the cut |
| Deliveries.FirstCorrectionIsForgotten | src/native.rs:343-366 | a concrete run: three corrections are queued behind the prompt, delivered in one batch, and the conversation is compacted at once; the first of them is gone before any request has held it |
| NativeLoop.RunsStayAligned | src/native.rs:125-139 | at every checkpoint of any schedule the unanswered calls are those pending, and at every request the conversation is well formed, if and only if no call of an earlier response was refused |
| TurnEnds.TurnHasCause | src/native.rs:178-217 | for every schedule a turn ends only as something that has happened in it says: complete only behind a response without calls and hooks that let it stop, cancelled or shut down only by such a command, failed only by a failure, hooks that hold, calls, or a runtime that holds a result or finds the conversation large, unfinished only when nothing happens any more |
| TurnEnds.CompletesIff | src/native.rs:533-575 | the Stop gate completes a turn if and only if its hooks neither hold it nor ask for a correction, nothing that has arrived ends it, and no correction waits |
| Turns.PreparedInOrder | src/native.rs:343-375 | commands are drained, corrections delivered, and a large conversation replaced, in this order; what a request is built on begins with what these leave |
| NativeLoop.NativeSession.Control | src/native.rs:635-683 | a command does to the queue what its specification says, keeps the order of admissions and never starts anything |
| NativeLoop.NativeSession.Await | src/native.rs:462-468 | commands are taken before the awaited future at every poll, it is polled as the specification of the select says, and the last receipt a tool leaves meanwhile is kept |
| NativeLoop.NativeSession.Tell | src/native.rs:316-317 | a prompt or correction is the last message of the conversation at the moment it is noted as said, and a correction leaves the batch then |
| NativeLoop.NativeSession.SubmitPrompt | src/native.rs:284-324 | a prompt or correction that is not held stands in the history behind all that was there, and becomes the developer's prompt; a held or interrupted one changes neither history nor batch |
| NativeLoop.NativeSession.DeliverBatch | src/native.rs:349-358 | history, batch, queue, schedule and end are those of the specification of a delivery, also if it ends in the middle |
| NativeLoop.NativeSession.Deliver | src/native.rs:348-359 | all waiting corrections are delivered in order, batch by batch, also those that arrive meanwhile; nothing is said if none waits |
| NativeLoop.NativeSession.Prepare | src/native.rs:343-375 | what becomes of conversation, queue and schedule up to a request, and how that ends, is the function Turns.Preparing of what was there |
| NativeLoop.NativeSession.WaitingIsBounded | src/native.rs:343-359 | in every state of every run at most 64 corrections wait, and at most 32 while no batch is being delivered |
| NativeLoop.NativeSession.RunTool | src/native.rs:461-512 | the tool is awaited as the specification of the select says right after it has been chosen; the call in front gets exactly the success that its wait came back with, added behind the history, and no other call is touched; state and end are the function Turns.Executing of what was there |
| NativeLoop.NativeSession.RunTools | src/native.rs:443-513 | every result is due in the sense of CallResults.CallIsAnswered; the results given are those of the first calls, in order and by name, and of all calls unless the turn ends; conversation, receipt, queue, schedule and end are the function Turns.RunningTools of what was there |
| NativeLoop.NativeSession.Request | src/native.rs:376-442 | what a request makes of conversation, pending calls, queue and schedule, and whether the provider has failed, is the function Turns.Requesting; behind it no result has been given |
| NativeLoop.NativeSession.Round | src/native.rs:342-577 | one request with its tools and what follows is the function Turns.Round of what was there |
| NativeLoop.NativeSession.Respond | src/native.rs:405-442 | history and pending calls are those of the specification of a response; soundness is lost exactly with a refused call |
| NativeLoop.NativeSession.Compact | src/native/compaction.rs:173-320 | the conversation is replaced if and only if there is something to cut, the developer has spoken, and the summary comes and is installed; then it is exactly the summary, the objective if there is one, what the developer said last and the last two exchanges; otherwise it is unchanged, whatever fails |
| NativeLoop.NativeSession.StopGate | src/native.rs:533-575 | a turn is complete if and only if the hooks neither hold it nor ask for a correction, nothing ends it and no correction waits when they have let it stop; the hooks know whether one has been refused, and a refusal is remembered |
| NativeLoop.NativeSession.RunTurn | src/native.rs:325-577 | a turn that ends complete has said its prompt and every admitted correction exactly once in admission order, has asked the model since, and leaves nothing pending; conversation, queue, schedule and end of every turn are the function Turns.Running of its schedule |
| NativeLoop.NativeSession.SettleInterruption | src/native.rs:130-139 | every pending call gets one answer in order; the receipt of a finished tool is used for the call in front and for no other |
| NativeLoop.NativeSession.Restore | src/native.rs:141-169 | a session restored from any checkpoint has its developer prompt and no open call, with recorded results where there are any; its conversation is well formed if and only if that of the checkpoint was aligned |
| NativeLoop.NativeSession.Turn | src/native.rs:178-217 | between turns nothing is pending, whatever happened in the turn; the replies noted are to exactly the submissions taken from the schedule, each once and in order; the notes of a complete turn tell of the delivery of exactly the corrections admitted in it, in that order, and of a request behind the last; state and end are the function Turns.Turn of the schedule, of which TurnEnds.TurnHasCause speaks; the notes of any number of turns are such as CallResults.CallIsAnswered, RunsStayAligned and the lemmas of Courses require |
| Courses.RequestHoldsWhatWasSaid | src/native.rs:316-317 | a prompt or correction is part of every later request, behind everything that was there before it and in the order in which it was said, until the conversation is compacted |
| Courses.CompactionHolds | src/native/compaction.rs:249-275 | a correction that stands nowhere else is in the compacted conversation if and only if it stands behind the cut or is what the developer said last |
| Courses.RequestHoldsAfterCompaction | src/native.rs:359-375 | a request behind a compaction holds such a correction if and only if the compaction has kept it or it has been said again |
| Courses.HeardMeansAsked | src/native.rs:570-572 | the model has heard everything said if and only if a request follows each prompt and correction |
| Courses.StopKnowsBlocks | src/native.rs:533-567 | the hooks of a Stop are told that one has been refused if and only if one has, since the developer last spoke |
| Assembly.BlocksHoldTheirFragments | src/adapters/anthropic.rs:183-258 | however the fragments of several blocks are interleaved, each block holds its own, in the order they came |
| Assembly.Anthropic.Response | src/adapters/anthropic.rs:164-345 | calls are returned if and only if the message is complete: assembled up to its end, not cut short at a limit, with inputs that can be read; the history then gets exactly these calls, and otherwise stays as it was |
| Assembly.CallsAreTools | src/adapters/anthropic.rs:319-340 | each tool block gives the call at its place among the tool blocks, and no other block gives one |
| Assembly.Anthropic.AddToolResults | src/adapters/anthropic.rs:142-163 | results of a batch join the message of results that is last, and no other |
| CodexCallbacks.AcceptedIffGrammatical | src/adapters/codex_non_tool.rs:129-469 | the flags accept exactly the traces of the grammar: a submission hook, then work and blocked Stops in turn, one Stop let through, then only completions; nothing falls into an open hook or behind the accepted Stop |
| CodexCallbacks.ExtendKeeps | src/adapters/codex_non_tool.rs:129-299 | each accepted event moves the flags as the grammar moves |
| CodexCallbacks.Callbacks.Begin | src/adapters/codex_non_tool.rs:69-115 | a turn begins if and only if no hook is open and the backend owner is new; deliveries are remembered across turns |
| CodexCallbacks.Callbacks.Observe | src/adapters/codex_non_tool.rs:129-299 | a frame is accepted if and only if it belongs to the turn, the grammar allows it and it is not a second start; an accepted start or reply to this request names the turn, and every other frame leaves the name as it was |
| CodexCallbacks.OneTurnMeans | src/adapters/codex_non_tool.rs:129-160 | over all frames accepted since a turn began: it is named if and only if a start has been accepted, every accepted frame that names a turn names this one, and none does before |
| CodexCallbacks.Callbacks.Handle | src/adapters/codex_non_tool.rs:300-469 | a callback is handled if and only if it is admissible (for the open hook, genuine, of this turn, under a new delivery within the limit, and saying what has been seen), its dispatch succeeds and its correction is admitted; one that is not admissible changes nothing |
| CodexCallbacks.Callbacks.Ordinary | src/adapters/codex.rs:512-523 | handled and sent together keep the turn in the grammar, and the sequence counts distinct deliveries, at most 1024 over all turns |
| ClaudeCallbacks.AcceptedIffGrammatical | src/adapters/claude_non_tool.rs:158-481 | the flags accept exactly the traces of the grammar: a submission, exchanges of a response and what sends the model back to work, a Stop let through, then only results |
| ClaudeCallbacks.CallbackIsAcknowledged | src/adapters/claude_non_tool.rs:158-326 | between two callbacks a response has started or a result has come, unless the first was a batch nobody had anything to say about |
| ClaudeCallbacks.CallbackFollowsIff | src/adapters/claude_non_tool.rs:158-326 | behind a callback another may come at once if and only if the first was such a batch |
| ClaudeCallbacks.ClearedExactlyOnce | src/adapters/claude_non_tool.rs:343-423 | the operation of a callback is taken away by exactly one symbol: the first start of a response or result behind it |
| ClaudeCallbacks.QuietBatchIsNotAcknowledged | src/adapters/claude_non_tool.rs:308-325 | a concrete turn in which one batch callback follows another with no response between |
| ClaudeCallbacks.PendingClosesResponse | src/adapters/claude_non_tool.rs:343-422 | a pending callback implies no open response, and a turn may report its result exactly behind a Stop that was let through |
| ClaudeCallbacks.Callbacks.Begin | src/adapters/claude_non_tool.rs:108-141 | a turn begins if and only if no callback is pending and the backend owner is new; identities are remembered across turns |
| ClaudeCallbacks.Callbacks.Handle | src/adapters/claude_non_tool.rs:158-326 | a callback is handled if and only if it is admissible, and then its symbol is one the grammar allows; request and envelope identities never repeat across turns; a refused one changes nothing |
| ClaudeCallbacks.Callbacks.Observe | src/adapters/claude_non_tool.rs:343-423 | a message is accepted if and only if its symbol is one the grammar allows, it belongs to the command, and a pending operation has been delivered; a result follows acceptance |
| ClaudeCallbacks.Callbacks.ObserveStream | src/adapters/claude_non_tool.rs:424-481 | an event is accepted if and only if a response is open, text blocks do not overlap and stay within their limit; the text of a response is that of its last text block, gathered from its deltas in order |
| ClaudeCallbacks.TrimmedIsMiddle | src/adapters/claude_non_tool.rs:500-510 | the message compared is the text between its first and its last character that is no white space, and is empty only if there is none |
| ModelSwitches.RunsAreInOrder | src/adapters/claude_model_switch.rs:84-330 | over any number of switches and resets the flags tell what has happened, no identity is claimed twice, and both identity sets have equal size at most 4096 |
| ModelSwitches.FinishMeansAllThree | src/adapters/claude_model_switch.rs:218-229 | a switch is finished if and only if exactly the callback before, the success and the callback behind have happened since it began, for one model |
| ModelSwitches.RefusalMeansOnlyPre | src/adapters/claude_model_switch.rs:206-217 | a switch may be refused if and only if only its callback before has happened |
| ModelSwitches.NoReplay | src/adapters/claude_model_switch.rs:84-97 | a claimed identity is never accepted again, and the refused callback changes nothing |
| ModelSwitches.Callbacks.HandleCallback | src/adapters/claude_model_switch.rs:260-330 | the callback is handled if and only if it is valid, new under both identities and within the limit, and its resolution and dispatch succeed; nothing changes when validation or the replay check fails |
| ModelSwitches.Callbacks.FinishSwitch | src/adapters/claude_model_switch.rs:218-229 | finishing succeeds if and only if the callback before, the success and the callback behind have been seen; the active switch is gone whether or not it does |
| HardLinks.NamesAreReachable | src/developer_access.rs:438-477 | the names sought are exactly the multiply linked files that can be reached without entering a private directory, each once |
| HardLinks.InspectLinks | src/developer_access.rs:438-477 | the worklist ends with exactly those names grouped by file and exactly the private directories set aside; it gives up if and only if two names of one file report different counts |
| HardLinks.GroupHolds | src/developer_access.rs:459-473 | a group holds the names of its inode that were seen, and the count they report |
| HardLinks.CollectPrivateLinks | src/developer_access.rs:479-510 | the worklist ends with the multiply linked files reachable through protected names only, added to those known before |
| HardLinks.AliasIff | src/developer_access.rs:479-510 | a file is found if and only if it has several names and one of them is protected together with every name above it |
| LinkPolicies.PrivateLinks | src/developer_access.rs:254-265 | over all private paths exactly the files with such a name are collected |
| LinkPolicies.BindLinks | src/developer_access.rs:285-401 | from the tree to the bindings: a visited name is bound to the denied file if and only if its file has a protected name, bound read-only if and only if it has none but a name that was not visited, and otherwise stays writable |
| HardLinks.Binds | src/developer_access.rs:384-401 | a name is bound read-only if and only if its file is secret or has names elsewhere, and to the denied file if and only if it is secret; then all its visited names are |
| HardLinks.WritableIff | src/developer_access.rs:384-401 | a multiply linked file stays writable if and only if no name of it is protected and all its names, wherever they are, were visited |
| Corrections.PermitsAreConserved | src/session.rs:72-168 | at every step free permits and those of queued and drained corrections make up 32, and every accepted text has been applied, is drained or is queued, in order of admission |
| Corrections.NeverFull | src/session.rs:118-165 | the branch for a full channel behind a permit is never taken; rejection means all permits are held |
| Corrections.AppliedInOrder | src/adapters/codex.rs:427-475 | accepted texts enter prompts in admission order, and all have when none waits |
| Corrections.PromptHoldsEach | src/session.rs:94-100 | the joined prompt holds each text unchanged at its place, separated by blank lines |
| Corrections.AcceptedIff | src/session.rs:118-165 | after any run a text for the backend is accepted if and only if a permit is free, the channel is open and somebody hears the answer; then it is last in the channel, and otherwise nothing changes |
| Corrections.CorrectionChannel.RelayCommand | src/session.rs:102-168 | a permit not passed on with a correction is free again; the outcome is that of the specification |
| Corrections.CorrectionChannel.CorrectionPrompt | src/session.rs:94-100 | the loop joins the drained texts and frees their permits |
| Frames.CorrectionTurn.FramesBelong | src/adapters/codex.rs:598-623 | kept frames are accepted if and only if all name this thread and the acknowledged turn, if any, and at most one starts the turn |
| Frames.DispatchedAt | src/adapters/codex.rs:541-640 | every notification is dispatched unchanged at its place, but for a user message that comes before the acknowledgment |
| Frames.KeptAsItIs | src/adapters/codex.rs:25-43 | before the acknowledgment only a user message is kept without its text, and only if it says thread and turn |
| Frames.CorrectionTurn.Receive | src/adapters/codex.rs:541-640 | a frame is observed on arrival, and taken if and only if the monitor accepts it and: before the acknowledgment a notification is addressed and fits within 64 frames and 1 MiB; a reply is no failure, acknowledges at most once and what has been kept; behind it a notification names only this thread and turn and starts the turn at most once |
| Frames.CorrectionTurn.Replay | src/adapters/codex.rs:482-487 | a kept frame is dispatched the common way without being observed again; it is refused if and only if it does not say which turn it starts or ends |
| Frames.CorrectionTurn.Run | src/adapters/codex.rs:482-556 | each frame is observed exactly once, on arrival; no notification is dispatched before the start reply; what is dispatched is a beginning of all notifications in arrival order, and all of them if no frame ends the turn; the turn fails only if the last frame taken is not welcome or a kept one does not name its turn |
| Sessions.LifeIsAccounted | src/session.rs:538-690 | over any moments the submissions received are exactly those that arrived, in order; each is answered exactly once and at once; every accepted draft somebody waits for has become a prompt or a queued correction or been dropped, but for one whose turn is being announced |
| Sessions.RepliesAreEarned | src/session.rs:555-690 | a submission is accepted if and only if it comes between turns and is admitted, or in a turn where it is no control and fewer than 32 wait: a refusal means that the session is starting or over, an event waits, or one of these conditions fails; what is accepted and heard becomes a queued correction, or its turn is announced at once |
| Sessions.OverIff | src/session.rs:538-690 | a session is over if and only if a shutdown or close has been taken where it counts, the publication of an event has failed or been stopped, or a turn has ended that way |
| Sessions.AcceptedDraftMayBeDropped | src/session.rs:579-637 | a whole schedule in which a submission is answered with acceptance and then dropped: a cancellation arrives while the start of its turn is being published |
| Drafts.PublishedIff | src/session.rs:383-424 | an event is published if and only if that comes before every command or failure that ends the wait for it |
| Drafts.SessionOwner.Publish | src/session.rs:383-424 | while an event waits for the terminal drafts are sent back and controls obeyed as the specification says; the moments taken move the session as its automaton does |
| Drafts.SessionOwner.Take | src/session.rs:621-640 | an accepted draft becomes the prompt of a turn if and only if the start of the turn is published before every cancellation, shutdown, close and failed publication; it is dropped if and only if one of these comes first |
| Drafts.SessionOwner.InTurn | src/native.rs:635-669 | a submission during a turn is received and answered at once; it is accepted if and only if it is no control and fewer than 32 corrections wait, and then it is a queued correction if somebody hears the answer |
| Drafts.SessionOwner.Run | src/session.rs:538-690 | the loop takes moments until the session is over or nothing happens any more, and what is received, answered, prompted and dropped is what the automaton of a session says for exactly the moments taken; it is over only as Sessions.OverIff says |
| Drafts.NoDraftIsLost | src/terminal.rs:152-240 | the editor holds what was last written unless exactly that text has been submitted and accepted, and nothing has been written since |
| Drafts.View.SubmitDraft | src/terminal.rs:160-188 | at most one draft is under way, and sending never changes the editor |
| Drafts.View.PollCommands | src/terminal.rs:193-240 | an answer is used once; the object follows the specification of one action |

## Left out

- Grapheme segmentation and display widths are parameters; only the law of prefix stability is used, and no Unicode table is modelled.
- The syntax parser and concrete colours and styles: a parser is any state machine over lines, a style is a number.
- Integer widths of the program: row starts fit 32 bits because a text has at most 1 MiB, row numbers and counters are unbounded here; the 16-bit cell of the thumb is modelled with its wrap-around.
- Titles are kept as bytes; their eliding to a width, and the words of fold rows, are drawing.
- Retained capacity of strings: the program reallocates a cut line, which changes no text.
- ChatRows.Window: works on the value of the index that a layout has left, not on the chat object, and draws rows without colours.
- NativeLoop.NativeSession.Compact: the several awaits before the replacement is applied are one, and sizes, deadlines and plugin dispatch are failures that may happen at any point.
- NativeLoop.NativeSession.ObserveFailure: the plugin observation of a provider failure is an outcome; what it says of submissions is only that each is refused.
- The text of a prompt as hooks and compaction see it is the prompt itself; the runtime may hand them the developer's own words instead.
- Tool execution itself: a tool leaves any receipt at any time while it is awaited and comes back with success or failure.
- The text blocks of a model message are not kept in the conversation, only its calls.
- The bodies of requests and the transport of a response: a stream is the sequence of its events, and reading an input as JSON is a predicate.
- Sizes of quoted texts in the Claude monitor are counted in characters, not in bytes.
- Schema validation, session, workspace, transcript and registration checks of callbacks are one condition that may hold or not; what the runtime answers may be anything.
- A Codex or Claude plugin asks for a correction only at a Stop; this is required of the outcomes that are handed to the monitors.
- Model switch requests, denial answers and the reply texts of callbacks.
- Symbolic links, errors of directory reads and cancellation during the inspection of links; the tree does not change meanwhile.
- The rest of the sandbox command: mounts, environment, socket filter.
- The semaphore of corrections is never closed in the program, so its closed case is not modelled.
- Frames: interruption of a turn, tool calls inside the Codex loop, plugin corrections and deadlines; the frame that ends a turn and the verdict of the monitor are any predicates.
- Drafts: notices and status texts, background cancellation, and the adapters' turns beyond the commands that reach them.
- Timeouts are failures that may happen at any await.
- HTTP clients, process control, terminal drawing, clipboard, settings and workflow are not part of this model.
