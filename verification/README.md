# Verification of the terminal renderer, text layout, agent loop and stream codecs

This project models the parts of the repository whose correctness rests on invariants that no single function shows,
and proves them with Dafny's verifier. `dafny verify dfyconfig.toml` checks everything.

* **Differential renderer** (`Terminal.dfy`, `DiffRenderer.dfy`, `RenderRuns.dfy`). A terminal is a tape of rows of
  which the last `height` are the screen, with a cursor; the renderer's fields describe it. `Tui.DoRender` edits the
  terminal in place. Whatever branch a render takes, the screen then shows lines of the frame, row by row, over any run
  of frames, resizes and forced renders: those a full repaint would show, except that after a frame has shrunk they may
  be shifted (`RefinesFullRepaint`). The fields keep agreeing with the terminal unless the cursor marker lies above the
  screen, where the cursor is lost (`StepKeepsSync`).
* **Text with escape sequences** (`Ansi.dfy`, `StyleRoundTrip.dfy`, `Tracker.dfy`, `StyledText.dfy`, `Wrap.dfy`,
  `Overlay.dfy`, `Truncate.dfy`). A text is a sequence of escape sequences and grapheme cells; it means the cells it
  shows, each in the style in force there. Wrapping, overlaying and truncating are proved to keep that meaning and their
  width bounds, slicing exactly when `SliceStyles` says so.
* **Agent loop** (`AgentEvents.dfy`, `Agent.dfy`, `AgentTools.dfy`, `AgentLoop.dfy`). A grammar for the emitted events,
  the reducer that folds them, tool batches under every interleaving, and whole runs with steering and follow-ups.
  Providers, tools and hooks are inputs of the run: what they will do is a parameter, and nothing is assumed of it
  beyond what is written in `requires`.
* **Input splitter** (`StdinBuffer.dfy`, `PasteRuns.dfy`). What listeners get, pastes included, depends on the text alone
  and not on its chunks, exactly unless a boundary divides an escape sequence or the start of a paste.
* **Deferred session writes** (`HarnessWrites.dfy`, `FlushOverlap.dfy`). A write-behind queue with failing appends,
  concurrent setters and overlapping flushes.
* **Stream codecs** (`JsonDeltas.dfy`, `Proxy.dfy`). JSON that is printed while its string still grows, read back under
  section 7 of RFC 8259; lines framed from chunks and messages rebuilt from events.
* **Keys and fuzzy search** (`Keys.dfy`, `Fuzzy.dfy`). Two decoders and exactly when they agree, and a greedy matcher that is
  complete.

`Common.dfy` and `Utf16.dfy` hold what the others share.

Places where the code does not do what its comments or tests suggest are stated as lemmas with the input that shows it:
`RenderRuns.MarkerAboveScreenIsLost`, `Overlays.SliceLosesStyle`, `InputSplitting.SplitEscapeIsSeen`,
`ProxyStreams.DeltaAfterEnd`, `HarnessWrites.OvertakenWithoutFailure`, `OverlappingFlushes.WriteIsLost`,
`KeyDecoding.WideCodepointsDiffer`, `AgentLoops.SecondStartBreaks`.

## Model

| member | source | states |
|---|---|---|
| Terminals.ScrollbackStays | packages/tui/src/tui.ts:1304-1339 | whatever is written to the terminal, short of wiping everything, what has scrolled off stays |
| DiffRendering.Tui.DoRender | packages/tui/src/tui.ts:1274-1664 | from any state in which fields and terminal agree, one render leaves the terminal repainted or edited as `Renders` says, whichever branch is taken |
| DiffRendering.Tui.FullRender | packages/tui/src/tui.ts:1304-1345 | all lines from a cleared (or clean) screen, one row each, the fields describing the result |
| DiffRendering.Tui.FindChanges | packages/tui/src/tui.ts:1389-1410 | the scan finds the first and last index at which old and new lines differ, and -1 exactly if none does |
| DiffRendering.Tui.RenderChanges | packages/tui/src/tui.ts:1387-1664 | the differential part repaints fully exactly when the frame-level condition `Repaints` says so, though it decides by its scan |
| DiffRendering.Tui.RenderScanned | packages/tui/src/tui.ts:1417-1503 | no change, only deletions, or changed lines: each ends with the new lines on screen and the cursor at the marker |
| DiffRendering.Tui.RenderDeletion | packages/tui/src/tui.ts:1426-1482 | deleted lines are wiped, or everything is repainted if the new end is above the screen; more deleted lines than rows cannot happen |
| DiffRendering.Tui.RenderRange | packages/tui/src/tui.ts:1484-1664 | changes above the screen are clamped away or cause a repaint; the rest is edited in place |
| DiffRendering.Tui.RepaintRange | packages/tui/src/tui.ts:1505-1664 | changed rows are rewritten, added ones scroll the screen, deleted ones are wiped, the scrollback is untouched |
| DiffRendering.Tui.WipeDeleted | packages/tui/src/tui.ts:1435-1466 | exactly the rows of deleted lines become blank and the cursor ends on the last line |
| DiffRendering.Tui.PositionHardwareCursor | packages/tui/src/tui.ts:1671-1702 | the cursor goes to the marker's row and column without changing a row; a marker above the screen leaves field and terminal apart |
| DiffRendering.Tui.Settle | packages/tui/src/tui.ts:1417-1424 | a render that changes no row keeps every row and brings the fields up to date |
| DiffRendering.Tui.ForceRender | packages/tui/src/tui.ts:732-741 | a forced render forgets all that was tracked, with sizes that make the next render wipe the terminal |
| DiffRendering.Tui.constructor | packages/tui/src/tui.ts:295-341 | a new renderer agrees with a clean terminal |
| DiffRendering.ExtractCursorPosition | packages/tui/src/tui.ts:1254-1272 | finds the lowest marker within the bottom `height` lines, its column the width before it, and takes only that one out |
| DiffRendering.ApplyLineResets | packages/tui/src/tui.ts:1115-1124 | every line is normalised and gets a reset at its end |
| DiffRendering.NormalizedKeepsWidth | packages/tui/src/utils.ts:272-309 | replacing tabs by blanks and decomposing AM vowels changes no width and leaves no tab to the terminal |
| DiffRendering.FrameLinesPrintable | packages/tui/src/tui.ts:1115-1124 | taking out the marker, normalising and adding resets widens no line, and no line is empty or holds a tab afterwards |
| DiffRendering.RangeBuffer | packages/tui/src/tui.ts:1505-1599 | the buffer for changed lines, executed, prints exactly that range and ends on the last line of the frame |
| DiffRendering.DeletionBuffer | packages/tui/src/tui.ts:1435-1466 | the buffer for deleted lines, executed, wipes exactly their rows |
| DiffRendering.PrintAll | packages/tui/src/tui.ts:1304-1330 | the buffer of a full render, executed, puts line i on row i of the area it starts on |
| DiffRendering.ScanDecides | packages/tui/src/tui.ts:1484-1496 | deciding to repaint by the first changed index agrees with the condition stated on whole frames |
| DiffRendering.AllPrintedLays | packages/tui/src/tui.ts:1331-1345 | after a full render the renderer's invariant holds |
| DiffRendering.RangeLays | packages/tui/src/tui.ts:1640-1664 | after a range was rewritten the renderer's invariant holds again |
| DiffRendering.DeletedLays | packages/tui/src/tui.ts:1426-1482 | after deleted rows were wiped the renderer's invariant holds again |
| RenderRuns.StepKeepsSync | packages/tui/src/tui.ts:1671-1702 | one event keeps fields and terminal in agreement if and only if the cursor marker is not above the retained screen |
| RenderRuns.RunShowsEveryFrame | packages/tui/src/tui.ts:1274-1664 | over any run of frames, resizes and forced renders every frame's lines are on screen row by row and the tracked cursor is the real one |
| RenderRuns.RefinesFullRepaint | packages/tui/src/tui.ts:1304-1345 | the edited screen equals a full repaint's row for row, shifted only where a longer frame was retained, not at all if frames do not shrink |
| RenderRuns.RepaintModeStaysFaithful | packages/tui/src/tui.ts:1484-1496 | without scrollback preservation even the scrollback equals a full repaint's |
| RenderRuns.GrowingKeepsScrollback | packages/tui/src/tui.ts:1484-1503 | with preservation on and no shrinking, a frame wipes nothing and the scrollback gains exactly the lines that scrolled off |
| RenderRuns.RunKeepsScrollback | packages/tui/src/tui.ts:1484-1503 | over whole such runs the scrollback only grows, in step with `previousViewportTop` |
| RenderRuns.MarkerAboveScreenIsLost | packages/tui/src/tui.ts:1671-1702 | two renders on a new terminal of two rows, four lines and then three with the cursor on the second, leave the tracked cursor row apart from the terminal's |
| AnsiCodes.ExtractAnsiCode | packages/tui/src/utils.ts:311-349 | the length of the CSI, OSC or APC sequence at a position, 0 if there is none or it is not finished |
| AnsiCodes.CodeStandsAlone | packages/tui/src/utils.ts:311-349 | a sequence is recognised as itself whatever text follows it |
| AnsiCodes.OpenPrintsBack | packages/tui/src/utils.ts:359-385 | printing a hyperlink that was parsed gives back its very code, parameters and terminator included |
| StyleRoundTrip.ProcessedTrackable | packages/tui/src/utils.ts:404-536 | no escape sequence leads a tracker out of the states that can be printed |
| StyleRoundTrip.SgrCodeReads | packages/tui/src/utils.ts:558-576 | the printed SGR code is one whole sequence that restores every attribute and colour |
| StyleRoundTrip.ActiveCodesRestore | packages/tui/src/utils.ts:558-623 | feeding the active codes to a cleared tracker restores the state they were printed from |
| StyleRoundTrip.RoundTrip | packages/tui/src/utils.ts:390-623 | so it does from whatever state any text leads to, with 256 colours, RGB and hyperlinks |
| Tracker.AnsiCodeTracker.Process | packages/tui/src/utils.ts:404-536 | the tracker's fields after a sequence are the style after it |
| Tracker.AnsiCodeTracker.ApplyStandard | packages/tui/src/utils.ts:455-536 | one standard parameter: 22 ends bold and dim, 39 and 49 end colours, unknown ones change nothing |
| Tracker.AnsiCodeTracker.Reset | packages/tui/src/utils.ts:538-551 | an SGR reset clears everything but the hyperlink |
| Tracker.AnsiCodeTracker.Clear | packages/tui/src/utils.ts:553-556 | clearing also closes the hyperlink |
| Tracker.AnsiCodeTracker.GetActiveCodes | packages/tui/src/utils.ts:558-576 | prints the codes of exactly what is on, in a fixed order; a cleared tracker that reads them has the same state |
| Tracker.AnsiCodeTracker.GetLineEndReset | packages/tui/src/utils.ts:600-610 | what it prints, read in the tracked style, ends underline and hyperlink and leaves the rest as it was |
| StyleRoundTrip.LineEndResetReads | packages/tui/src/utils.ts:600-610 | the line end reset is whole escape sequences, with the link's own terminator, that end underline and hyperlink and nothing else |
| Tracker.UpdateTrackerFromText | packages/tui/src/utils.ts:612-623 | a tracker fed a text ends in the style after it |
| StyledText.ActiveItemsRestore | packages/tui/src/utils.ts:558-576 | a line led in by the active codes starts in the tracked style |
| StyledText.LineEndItemsClose | packages/tui/src/utils.ts:600-610 | a line led out by the line end reset is left without underline and hyperlink and otherwise as it was |
| StyledText.ItemsPrint | packages/tui/src/utils.ts:558-610 | the sequences put at line starts and ends are, as text, what the tracker prints |
| StyledText.TrimShows | packages/tui/src/utils.ts:818-818 | trimming a line's end removes blanks only |
| Wrapping.SplitIntoTokens | packages/tui/src/utils.ts:628-702 | the tokens are the line again in order; each holds only spaces, only parts of a word, or one wide CJK character alone, and only the last may end in sequences |
| Wrapping.BreakLongWord | packages/tui/src/utils.ts:837-904 | the pieces show the word's cells in order and styles, each read from a reset style, end without underline and hyperlink, and fit the width if every cell does |
| Wrapping.WrapSingleLine | packages/tui/src/utils.ts:740-819 | the lines show the input's cells in order and styles, apart from blanks dropped at line ends; all but the last end without underline and hyperlink |
| Wrapping.WrapTextWithAnsi | packages/tui/src/utils.ts:715-738 | every input line wraps into its own lines, styles carried over line breaks, underline and hyperlink closed before them; no line is wider than `width` if each cell fits it |
| Wrapping.WrapsKeepsMeaning | packages/tui/src/utils.ts:715-819 | every non-space grapheme of the text is in the output exactly once, in order, with its attributes, colours and hyperlink |
| Wrapping.PiecesKeepInk | packages/tui/src/utils.ts:740-819 | cutting into pieces at blanks loses no visible cell |
| Overlays.SliceWithWidth | packages/tui/src/utils.ts:1083-1128 | the loop, which may stop early, computes the slice defined over the whole line |
| Overlays.SliceShows | packages/tui/src/utils.ts:1083-1128 | a slice has exactly the cells of its columns and its reported width is theirs |
| Overlays.SliceFromStart | packages/tui/src/utils.ts:1083-1128 | from column 0 the slice also has every cell in its own style |
| Overlays.SliceStyles | packages/tui/src/utils.ts:1096-1121 | further right it has the line's styles if and only if reading the sequences before the start column after those from there on makes no difference |
| Overlays.HoldsBack | packages/tui/src/utils.ts:1096-1121 | until a cell is kept the scan has held back the sequences before the start column and put out those from there on |
| Overlays.SliceLosesStyle | packages/tui/src/utils.ts:1096-1121 | a styled word, a reset, a plain word: the plain word is cut out styled |
| Overlays.ExtractSegments | packages/tui/src/utils.ts:1138-1209 | the cells left of the overlay and those right of it, each in the style it has in the line, despite early exits |
| Overlays.CompositeLineAt | packages/tui/src/tui.ts:1196-1244 | the line shows base, overlay and base segments, each padded to its width, cut only if that is wider than the terminal |
| Overlays.OverlayFillsLine | packages/tui/src/tui.ts:1196-1244 | an overlay that fits gives a line of exactly the terminal's width, so the final cut is never needed |
| Overlays.OverlayKeepsLeft | packages/tui/src/tui.ts:1196-1244 | base cells that end left of the overlay keep column, grapheme and style |
| Overlays.OverlayKeepsRight | packages/tui/src/tui.ts:1196-1244 | base cells right of it keep grapheme and style, and their column up to what a wide cell sticks out of the overlay's right edge |
| Overlays.OverlayCovers | packages/tui/src/tui.ts:1196-1244 | in the overlay's columns there are only its own cells, in place, and padding |
| Truncation.TruncateToWidth | packages/tui/src/utils.ts:936-1072 | shortcut, plain loop and styled loop give the same result: the text, or what fits of it beside the ellipsis |
| Truncation.TruncatedWidth | packages/tui/src/utils.ts:936-1072 | the result never exceeds the width, fills it when padded, and unpadded is the text itself if and only if that fits |
| Truncation.PrefixIsLongest | packages/tui/src/utils.ts:1028-1042 | what is kept fits its budget and no further cell would |
| Truncation.AsciiPrefix | packages/tui/src/utils.ts:965-971 | for printable ASCII taking characters keeps what measuring cells would |
| Truncation.TruncateFragment | packages/tui/src/utils.ts:61-139 | an ellipsis that is too wide is cut to its longest fitting prefix |
| Truncation.FinalizeTruncatedResult | packages/tui/src/utils.ts:141-160 | resets after the prefix and after the ellipsis, padding up to the width |
| Truncation.TruncatedShows | packages/tui/src/utils.ts:141-160 | the kept cells keep their styles; the ellipsis follows without attributes and colours, but inside a hyperlink left open; the rest is blank |
| AgentEvents.GrammarAgrees | packages/agent/src/agent.ts:564-596 | in a trace that follows the grammar, what the reducer knows of open calls, unfinished message and messages is what the grammar says |
| AgentEvents.GrammarBrackets | packages/agent/src/agent-loop.ts:381-554 | in such a trace a call's updates lie between its start and its one end |
| Agents.PendingMessageQueue.Enqueue | packages/agent/src/agent.ts:131-133 | a message goes to the back |
| Agents.PendingMessageQueue.Drain | packages/agent/src/agent.ts:139-152 | one or all messages come off the front; what was enqueued is what was drained followed by what is left |
| Agents.Agent.ProcessEvents | packages/agent/src/agent.ts:564-596 | after each event transcript, streaming message, pending calls and error are the fold of all events |
| AgentTools.RefusedByTheFirst | packages/agent/src/agent-loop.ts:600-664 | a call is executed if and only if nothing stands in its way; else it ends with the first obstacle in the order tool, arguments, hook, abort, block |
| AgentTools.RefusalGoesOn | packages/agent/src/agent-loop.ts:582-664 | a refused call is reported as an error without updates, and its batch does not end the loop |
| AgentTools.ExecutePreparedToolCall | packages/agent/src/agent-loop.ts:666-707 | updates until the tool settles are announced in order, later ones ignored |
| AgentTools.RunCall | packages/agent/src/agent-loop.ts:444-471 | one call from start to end: start, updates, end with the outcome its tool and hooks lead to |
| AgentTools.FailToolCallsFromTruncatedMessage | packages/agent/src/agent-loop.ts:381-406 | every call of a truncated message is started, failed and reported, and the loop goes on |
| AgentTools.ExecuteToolCallsSequential | packages/agent/src/agent-loop.ts:433-487 | calls one after the other, all of them or, if aborted, the first ones, results in order |
| AgentTools.ExecuteToolCallsParallel | packages/agent/src/agent-loop.ts:489-554 | under every interleaving each started call says start, updates, one end, in this order; results come in the calls' order, one per started call, the rest missing only after an abort; the batch ends the loop only if every result asks for it |
| AgentTools.StartCall | packages/agent/src/agent-loop.ts:498-515 | a call is announced, prepared, and ended at once if there is nothing to execute |
| AgentTools.StepCall | packages/agent/src/agent-loop.ts:517-530 | one step of one running call: an update, settling, an ignored late update, or its end |
| AgentTools.RunCalls | packages/agent/src/agent-loop.ts:537-539 | any running call may be the next to get on, until all have ended |
| AgentTools.TellResults | packages/agent/src/agent-loop.ts:540-548 | results are told in source order whatever order the calls ended in |
| AgentTools.BatchNext | packages/agent/src/agent-loop.ts:443-481 | one more call keeps the batch's account of who said what |
| AgentTools.OverlapStep | packages/agent/src/agent-loop.ts:517-530 | a step of one call leaves what all others have said untouched |
| AgentLoops.StreamAssistantResponse | packages/agent/src/agent-loop.ts:281-372 | events and context after a stream: deltas before a start and events after the end count for nothing |
| AgentLoops.StreamView | packages/agent/src/agent-loop.ts:316-371 | a stream with at most one start is one message to listeners |
| AgentLoops.SecondStartBreaks | packages/agent/src/agent-loop.ts:318-323 | a second start breaks the event grammar |
| AgentLoops.ContextGrowsByAnswer | packages/agent/src/agent-loop.ts:316-371 | the context grows by exactly the answer if and only if the stream starts at most once |
| AgentLoops.RunAnswer | packages/agent/src/agent-loop.ts:192-224 | an answer with its tool results closes the turn; a failed answer ends the run |
| AgentLoops.InjectPending | packages/agent/src/agent-loop.ts:181-190 | pending messages enter transcript and context in order, each announced |
| AgentLoops.RunTurn | packages/agent/src/agent-loop.ts:173-224 | a turn is bracketed, and transcript and context grow by the same messages |
| AgentLoops.RunLoop | packages/agent/src/agent-loop.ts:155-275 | for any turns, finished or not: the trace follows the grammar, returned messages, told messages and context growth are the same, drained queue messages are injected in order or pending, and follow-ups are polled for only after a quiet turn and an empty steering poll |
| AgentLoops.RunAgentLoop | packages/agent/src/agent-loop.ts:95-118 | the same for a run opened by prompts |
| AgentLoops.RunAgentLoopContinue | packages/agent/src/agent-loop.ts:120-143 | the same for a run that goes on from the transcript |
| AgentLoops.SoundAccounts | packages/agent/src/agent.ts:460-495 | what was enqueued is what was injected, then what is pending, then what is still queued |
| AgentLoops.Prompt | packages/agent/src/agent.ts:365-373 | refused while a run is on, with nothing changed; else a run with all of the above |
| AgentLoops.Continue | packages/agent/src/agent.ts:376-403 | after an answer only queued messages go on, steering first; refused, with the queues as they were, exactly if there are none |
| AgentLoops.FinishRun | packages/agent/src/agent.ts:540-546 | the agent is idle again and the transcript stays |
| InputSplitting.SequenceEnd | packages/tui/src/stdin-buffer.ts:199-242 | the length of the shortest complete sequence at the front, if there is one |
| InputSplitting.ExtractCompleteSequences | packages/tui/src/stdin-buffer.ts:192-255 | the two nested loops compute the splitting defined by recursion |
| InputSplitting.ExtractConserves | packages/tui/src/stdin-buffer.ts:192-255 | sequences and remainder put together are the buffer |
| InputSplitting.ExtractIsShortest | packages/tui/src/stdin-buffer.ts:192-255 | each sequence is one unit or a complete escape sequence no prefix of which is complete; nothing that waits has a complete prefix |
| InputSplitting.TwoChunks | packages/tui/src/stdin-buffer.ts:209-231 | cutting in two changes nothing if and only if no introducer follows an emitted ESC ESC |
| InputSplitting.ChunksDoNotMatter | packages/tui/src/stdin-buffer.ts:192-255 | the same for any number of chunks |
| InputSplitting.StaysSplit | packages/tui/src/stdin-buffer.ts:209-231 | once an escape was split, the chunks have ESC ESC where the whole text has a lone ESC, for good |
| InputSplitting.DeliversAllButEchoes | packages/tui/src/stdin-buffer.ts:389-398 | listeners get every sequence except a character directly after the Kitty report that announced it |
| InputSplitting.InputDependsOnTextAlone | packages/tui/src/stdin-buffer.ts:287-398 | without pastes the delivered events are those of the whole text if and only if no chunk splits an escape |
| InputSplitting.SplitEscapeIsSeen | packages/tui/src/stdin-buffer.ts:209-231 | if one does, listeners get something else |
| InputSplitting.PasteMerges | packages/tui/src/stdin-buffer.ts:316-337 | while a paste is open chunks only add up |
| InputSplitting.PasteIsVerbatim | packages/tui/src/stdin-buffer.ts:316-337 | an open paste is delivered verbatim, up to its first end mark, as one event for any chunks, and what follows is processed on its own |
| PasteRuns.OpensRun | packages/tui/src/stdin-buffer.ts:339-371 | in any chunks: if no emitted sequence reaches into the start mark it is found, what came before it is emitted, an incomplete sequence right before it is lost, and the paste goes on in the chunks from there |
| PasteRuns.PasteRun | packages/tui/src/stdin-buffer.ts:316-337 | an open paste in any chunks ends at its first end mark, is delivered verbatim, and what follows is processed from the start |
| PasteRuns.CutBefore | packages/tui/src/stdin-buffer.ts:192-255 | a text cut where an escape begins has the first sequences of the whole text, except a lone ESC right before the cut |
| PasteRuns.PastesInChunks | packages/tui/src/stdin-buffer.ts:287-387 | input with any number of pastes, in any chunks, leads to the events and the state of its text in one chunk if and only if no boundary divides an escape sequence or a start mark; else listeners get something else |
| InputSplitting.StdinBuffer.Process | packages/tui/src/stdin-buffer.ts:287-387 | the buffer's fields and events after a chunk |
| InputSplitting.StdinBuffer.EmitDataSequence | packages/tui/src/stdin-buffer.ts:389-398 | one sequence delivered or suppressed as an echo |
| InputSplitting.StdinBuffer.Flush | packages/tui/src/stdin-buffer.ts:400-414 | hands out the whole buffer, leaving an open paste alone |
| HarnessWrites.AppendFirst | packages/agent/src/harness/agent-harness.ts:512-536 | persisting the first queued write keeps persisted writes followed by queued ones equal to the order of issue |
| HarnessWrites.QueueWrite | packages/agent/src/harness/agent-harness.ts:724-734 | so does queueing one more |
| HarnessWrites.AppendOther | packages/agent/src/harness/agent-harness.ts:538-543 | so does a message of the running turn, before which no write of that turn has been persisted |
| HarnessWrites.AgentHarness.FlushPendingSessionWrites | packages/agent/src/harness/agent-harness.ts:512-536 | with writes arriving at every wait and appends that may fail, success means all issued writes are persisted, once each and in order; failure loses none |
| HarnessWrites.AgentHarness.WriteOrQueue | packages/agent/src/harness/agent-harness.ts:724-983 | what every setter does with its write: queued while busy, appended directly while idle; session and queue together are all such writes in order of issue if and only if none was ever appended while idle with others still queued |
| HarnessWrites.IssueDirect | packages/agent/src/harness/agent-harness.ts:724-734 | a write appended directly is out of order exactly if others are queued |
| HarnessWrites.OrderIsIssueOrder | packages/agent/src/harness/agent-harness.ts:724-983 | if none was overtaken, session and queue hold exactly what was issued, one after the other |
| HarnessWrites.OvertakenWithoutFailure | packages/agent/src/harness/agent-harness.ts:658-787 | a run of the harness in which nothing fails: a write while it compacts, one while it is idle, a prompt; the session has the second before the first |
| HarnessWrites.AgentHarness.Handle | packages/agent/src/harness/agent-harness.ts:538-565 | every kind of loop event, with failing appends and listeners: turn ends persist what was issued before, messages are persisted as they come |
| HarnessWrites.AgentHarness.EmitRunFailure | packages/agent/src/harness/agent-harness.ts:567-580 | reporting a failed run keeps the order too |
| HarnessWrites.AgentHarness.ExecuteTurn | packages/agent/src/harness/agent-harness.ts:582-656 | a whole run, failing or not: if it succeeds nothing is left queued, and every message is in the session in order |
| HarnessWrites.AgentHarness.Prompt | packages/agent/src/harness/agent-harness.ts:658-671 | refused while busy, with nothing changed; within a run, failing or not, no write overtakes another |
| HarnessWrites.AgentHarness.OtherPhase | packages/agent/src/harness/agent-harness.ts:738-880 | compacting and tree navigation are refused while busy; writes issued meanwhile are queued, in order, and still queued when the harness is idle again |
| OverlappingFlushes.FlushesMustNotOverlap | packages/agent/src/harness/agent-harness.ts:512-565 | for any number of flushes and any interleaving with appends that may fail: when all are over, session and queue hold every write once and in order if and only if no flush began an append that landed while that of another was under way |
| OverlappingFlushes.WriteIsLost | packages/agent/src/harness/agent-harness.ts:512-536 | two flushes at once persist the first of two writes twice and the second not at all |
| HarnessWrites.MessageQueue.Drain | packages/agent/src/harness/agent-harness.ts:430-440 | if telling listeners fails, drained messages are back in front of what came meanwhile |
| JsonDeltas.EncodedIsRead | packages/ai/src/api/constrained-sampling.ts:33-63 | an encoded text is read back whatever follows it, so no escape reaches over its end |
| JsonDeltas.PartsAreRead | packages/ai/src/api/constrained-sampling.ts:47-55 | parts encoded one by one are read as one text, also where a surrogate pair was cut in two |
| JsonDeltas.ObjectIsRead | packages/ai/src/api/constrained-sampling.ts:33-63 | opened and closed, the parts are the object with the whole input as its one property |
| JsonDeltas.PartIsWhole | packages/ai/src/api/constrained-sampling.ts:55-55 | each delta is readable on its own |
| JsonDeltas.CutPair | packages/ai/src/api/constrained-sampling.ts:55-55 | a pair cut in two is printed differently but read the same |
| JsonDeltas.GrammarToolInputJsonBuffer.Append | packages/ai/src/api/constrained-sampling.ts:33-63 | when nothing is printed, when an input is rejected with nothing changed, what each delta is, and that once closed all deltas together decode to the final input |
| ProxyStreams.FrameConcat | packages/agent/src/proxy.ts:187-203 | framing lines goes on from what was left over, so chunks do not matter |
| ProxyStreams.FrameKeepsText | packages/agent/src/proxy.ts:187-203 | the lines and what is left over are the text again |
| ProxyStreams.LinesAreLines | packages/agent/src/proxy.ts:200-203 | no line and no rest holds a line end |
| ProxyStreams.BlocksAreRebuilt | packages/agent/src/proxy.ts:247-343 | the block at an index is what was started there last and the deltas since, whatever happened at other indices, if and only if no delta came after an end, or what it replaced happens to read the same |
| ProxyStreams.AlwaysRebuilt | packages/agent/src/proxy.ts:247-343 | after every single event the block is that, if and only if no tool call gets a delta after its end |
| ProxyStreams.LinesAreEvents | packages/agent/src/proxy.ts:205-216 | reading lines is running over the events they carry, up to the first exception |
| ProxyStreams.StreamRebuilds | packages/agent/src/proxy.ts:187-343 | for any chunks: a stream that ends well has passed on the events of its ended lines, and rebuilt every block from them under the same conditions |
| ProxyStreams.DeltaAfterEnd | packages/agent/src/proxy.ts:313-343 | a delta after a tool call's end puts the word undefined in front of its JSON |
| ProxyStreams.PartialMessage.ProcessProxyEvent | packages/agent/src/proxy.ts:247-376 | one event's effect on the message, and whether it is passed on, ignored or an exception |
| ProxyStreams.PartialMessage.StreamProxy | packages/agent/src/proxy.ts:175-237 | for any chunks the events passed on are those of the ended lines of the text read, up to the first exception or abort, which adds the error event with its reason and message |
| KeyDecoding.DecodersAgree | packages/tui/src/keys.ts:653-1249 | a Kitty report that is named is recognised by that name if and only if the key is not plus, not escape with modifiers, and its codepoint does not go beyond 16 bits (there only another form of the cut key is) |
| KeyDecoding.IdIsRead | packages/tui/src/keys.ts:776-801 | writing modifiers and key and reading them back gives both, except for plus |
| KeyDecoding.MatchesNamed | packages/tui/src/keys.ts:653-694 | a report matches the codepoint it is named after, through keypad keys, shifted letters, locks and layouts |
| KeyDecoding.NameIsKnown | packages/tui/src/keys.ts:1228-1245 | each key name stands, in an identifier, for the codepoint it was made from |
| KeyDecoding.FormatKeyNameWithModifiers | packages/tui/src/keys.ts:776-786 | the list of modifiers built step by step is the identifier |
| KeyDecoding.WideCodepointsDiffer | packages/tui/src/keys.ts:653-694 | a symbol's codepoint with bits beyond the 16th has a name by which it is not recognised |
| FuzzyMatching.GreedyIsComplete | packages/tui/src/fuzzy.ts:16-64 | the scan finds the query if and only if it is a subsequence of the text |
| FuzzyMatching.GreedyIsFirst | packages/tui/src/fuzzy.ts:30-54 | and each character at least as early as any other way of finding them |
| FuzzyMatching.MatchQuery | packages/tui/src/fuzzy.ts:16-64 | matches exactly for subsequences, with the score of the greedy places |
| FuzzyMatching.Scan | packages/tui/src/fuzzy.ts:25-54 | the running score is the sum of what each match is worth by its place |
| FuzzyMatching.Fuzzy | packages/tui/src/fuzzy.ts:12-90 | matches exactly if the query or its letter and digit swap is a subsequence |
| FuzzyMatching.SwapTwice | packages/tui/src/fuzzy.ts:71-77 | swapping letters and digits twice gives the query back |
| FuzzyMatching.SortedIsStable | packages/tui/src/fuzzy.ts:134-136 | ranking gives ascending scores and keeps, score by score, exactly the matching items in their order |
| FuzzyMatching.Filter | packages/tui/src/fuzzy.ts:99-137 | exactly the items all tokens match regardless of case, best first; everything if there is no token |

## Left out

- Images: Kitty and iTerm image lines, their reserved rows and their deletion in tui.ts.
- Terminals that behave differently: the Termux height rule, and the exception for lines wider than the terminal (a render requires its lines to fit).
- DiffRendering.NormalizedKeepsWidth: that a decomposed AM vowel takes the same columns is taken from its comment.
- Resizes there and back: a resize between two renders is modelled as one that the next render can see.
- compositeOverlays: layout, stacking order and clamping of several overlays; one overlay on one line is modelled.
- Graphemes and widths: segmentation and East Asian width come from Unicode tables; a text is given as cells with widths. Non-ASCII white space is not a break opportunity here.
- Wrapping: tabs and white space other than the ASCII space within a line.
- widthCache: the bounded cache in visibleWidth.
- Truncation.TruncateToWidth: a tab is a cell of three columns, as the code counts it outside of plain text.
- Exceptions of the agent loop: listeners and hooks do not throw in AgentLoop.dfy (handleRunFailure); the harness model has them.
- AgentLoops.RunLoop: a provider that starts an answer twice or repeats a call id within one answer is excluded; `SecondStartBreaks` and `ContextGrowsByAnswer` say what a second start does.
- AgentTools.ExecuteToolCallsParallel: call ids within one answer are required to differ, since events are told apart by them.
- PendingMessageQueue: clear, remove and update of queued messages.
- dispatchExternalEvent and executeSingleToolCall: nested calls from code cells.
- Timestamps, usage, details, images and added tool names in messages and tool results.
- HarnessWrites.AgentHarness.Handle: a listener that starts another run while agent_end is being told is modelled by its overlapping flushes alone (FlushOverlap.dfy); nor are setters modelled other than by the one write they issue.
- HarnessWrites: what compaction and tree navigation themselves put into the session, abort, resources and tool validation.
- StdinBuffer: the timeout that flushes an incomplete sequence (only `Flush` itself), and decoding of bytes.
- JSON: white space between tokens, other value types, and the property name's own escapes beyond what Encode does.
- ProxyStreams.PartialMessage.StreamProxy: HTTP, a read that is itself rejected, and decoding of bytes; JSON.parse is a parameter. The stream it hands events to ignores those after a done or error event.
- KeyDecoding.DecodersAgree: starts from the parsed report; the regular expressions of parseKittySequence, and data that is no Kitty report, are not modelled, and other forms accepted for a key are one Boolean.
- FuzzyMatching.Filter: scores are exact tenths instead of floating point sums; toLowerCase is a parameter.
- Editor, kill ring, undo, autocomplete, CLI, configuration, models, authentication and session storage.
