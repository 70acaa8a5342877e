# Verification of the Thinkite core

A Dafny model of the parts of Thinkite with state and rules worth proving: the
daemon's list of preview servers, the bytes between phone and daemon, the phone's
connection, the transcript, and the small reconcile and ordering pieces. `dafny
verify dfyconfig.toml` checks it.

Asynchronous code is cut at its `await`s. Each stretch between two awaits is one
atomic step of a state machine, any other step may come between, and what the outside
does (shells, processes, the network, the store, timers, the clock) is a parameter of
a step. A theorem "in any run" is over every sequence of steps. Beside each state
machine stands the class or loop of the source: its methods are proved to take exactly
those steps.

| file | what it models |
|---|---|
| Utf8, WireFrame, WriteChain | the UTF-8 fallbacks, length-prefixed frames, the read loop and the write chain |
| HttpReader | the incremental HTTP/1.1 response reader and its three framings |
| Connection | connect, pair, unpair, timers and drops around the facade's one transport |
| RpcTransport | one connection's requests, liveness probe and one-shot close |
| Protocol, PeerServer, Handshake | version rule, the daemon's version gate and disconnect callbacks, the phone's handshake, and both ends together |
| NameLock, Registry | the promise lock and the preview servers behind it |
| PortScanner, Unload, ProcessTree | the coalescing port check, the SIGTERM/SIGKILL escalation, process trees and their ports |
| TranscriptReducer | the event fold and the merge with pages of the projection |
| TranscriptContents | what each event puts into the row it names, and what a run of events leaves there |
| TranscriptRows, GroupKeys | the one-pass layout and the stable keys of its groups |
| Identifier | time-ordered ids |
| PortForward | the phone's port listeners |

Where the code does not keep what its comments say, the model follows the code. For
each of these there is the run or the input that shows it and the exact condition,
both ways and for all runs or inputs, under which the code does keep it:

- A re-check does not look at the status again after its await, so the cause of an
  ended server is not final while one is under way: run `Registry.RecheckOverStop`,
  condition `Registry.CauseIsFinal`.
- A queued port check is not cleared when the scan it waits for rejects: run
  `PortScanner.PoisonHappens`, condition `PortScanner.NeverAnsweredIff`.
- Reopening an old step can leave two assistant rows open: input
  `TranscriptReducer.ReopenLeavesTwo`, condition `TranscriptReducer.StepOpensOne`.
- Group keys can repeat after a group is split: input `GroupKeys.SplitSharesKey`,
  condition `GroupKeys.KeysDistinctIff`, and after a good build `GroupKeys.ClashIff`
  and `GroupKeys.SplitClashIff`.
- A loaded record is published whatever the epoch: run `Connection.RecordAfterUnpair`,
  condition `Connection.NoRecordAfterUnpairIff`. A finished unpair is shown whatever
  the epoch: run `Connection.UnpairedOverPair`, condition
  `Connection.UnpairedOverPairIff`.
- A pair whose store fails leaks its transport: every such failure does
  (`Connection.StorageFailureLeaks`), nothing else leaks one
  (`Connection.InPlaceOrClosed`).
- A request made on a transport whose wire has closed is neither answered nor rejected:
  run `RpcTransport.AskedAfterDrop`, condition `RpcTransport.HangsIff`. A wire that
  closes before its transport listens is never heard of: run
  `RpcTransport.UnheardHappens`, condition `RpcTransport.HeardIff`.
- A failed endpoint lookup ends all reconciling of the mount: run
  `PortForward.LeftListening`, condition `PortForward.OutOfStepForGoodIff`.
- A write that fails half way can mislead the reader about the next frame: run
  `WriteChain.BrokenFrameMisleads`, condition `WriteChain.ReadsOnlySentIff`, and as a
  count of bytes `WriteChain.TextReadsIff`.
- SIGKILL can go to a pid that never got SIGTERM when pids are taken again: input
  `Unload.TakenNumberIsKilled`, condition `Unload.KilledUnaskedIff`.

## Model

| member | source | states |
|---|---|---|
| Utf8.EncodeFallback | packages/protocol/src/wire-frame.ts:60-89 | the push loop over code units computes `Encode`: pairs joined, lone surrogates kept as three bytes |
| Utf8.DecodeFallback | packages/protocol/src/wire-frame.ts:92-133 | the decoding loop computes `Decode`, bytes past the end reading as zero |
| Utf8.RoundTrip | packages/protocol/src/wire-frame.ts:60-133 | decoding what was encoded gives the same code units back, for every sequence of them, lone surrogates included |
| Utf8.EncodesRfc3629 | packages/protocol/src/wire-frame.ts:60-89 | the bytes are UTF-8 by section 3 of RFC 3629 if and only if the string is well formed |
| Utf8.EncodesCodePoints | packages/protocol/src/wire-frame.ts:60-89 | whatever code points a string is made of by RFC 2781, its bytes are their UTF-8 by the table of RFC 3629, one by one |
| Utf8.DecodesAlone | packages/protocol/src/wire-frame.ts:92-133 | a byte that begins no character, or one cut off behind its first byte, is read by the bits at hand, the missing ones zero |
| Utf8.Enc | packages/app/src/lib/iroh-fetch.ts:39-60 | the buffer-filling encoder of request heads computes `EncFrom` |
| Utf8.EncAgrees | packages/app/src/lib/iroh-fetch.ts:39-60 | `enc` and the fallback encoder give the same bytes if and only if the string is well formed |
| WireFrame.LengthIsBigEndian | packages/protocol/src/wire-frame.ts:169-189 | which header gives which refusal (short, zero, over the cap), and that an accepted length is the big-endian value of its four bytes |
| WireFrame.ReadLoop | packages/app/src/lib/iroh-wire.ts:191-207 | the read loop of exact reads recovers `ReadAll` of the stream and the reason it stopped |
| WireFrame.ReadsBack | packages/protocol/src/wire-frame.ts:150-189 | the frames of any list of nonempty payloads up to the cap read back as exactly that list |
| WireFrame.ReadMonotone | packages/daemon/src/iroh-peer-server.ts:364-375 | any prefix of a stream reads as a prefix of the payloads of the stream |
| WireFrame.ReadsOnlyFrames | packages/protocol/src/wire-frame.ts:150-189 | whatever is read is a list of payloads within the cap whose frames begin the stream |
| WireFrame.MessagesReadBack | packages/protocol/src/wire-frame.ts:150-194 | any cut of the frames of strings decodes to the first few of them, the whole to all |
| WriteChain.StepInv | packages/app/src/lib/iroh-wire.ts:228-237 | every step of interleaved sends keeps whole frames in send order and one piece on the stream, up to the first failed write |
| WriteChain.SentInOrder | packages/app/src/lib/iroh-wire.ts:228-237 | in any run what is chained is what was sent and is not over-long, in the order of the calls |
| WriteChain.AllGetsWritten | packages/app/src/lib/iroh-wire.ts:228-237 | from every state, whatever has failed before, the chain can be run to its end, and all that waited is then on the stream whole |
| WriteChain.ReaderGetsSendOrder | packages/daemon/src/iroh-peer-server.ts:484-509 | in any run, what has arrived before the first failure reads as a prefix of the payloads in send order, and as all of them once written and arrived |
| WriteChain.HarmlessFailures | packages/daemon/src/iroh-peer-server.ts:499-508 | in any run, with any writes failing: as long as no frame is left in pieces with bytes behind it, the reader delivers exactly what was put whole, in order |
| WriteChain.ReadsOnlySentIff | packages/daemon/src/iroh-peer-server.ts:364-375 | in any run: every frame the reader delivers is, at its place, one that was put whole if and only if the first frame left in pieces does not make up a frame with the bytes behind it; what is delivered is then some of what was sent, in order, and all that was put whole if and only if none of it was put behind that piece |
| WriteChain.TextReadsIff | packages/app/src/lib/iroh-wire.ts:228-237 | for JSON and a piece with its header out: what is delivered is some of what was sent, in order, if and only if fewer bytes follow the piece than it lacks |
| WriteChain.BrokenFrameMisleads | packages/app/src/lib/iroh-wire.ts:228-237 | after a write that failed half way the chain goes on, and a reader can take the next frame for the rest of the broken one |
| WriteChain.Writer.Send | packages/app/src/lib/iroh-wire.ts:228-237 | a send encodes at once and queues its frame; only an over-long message is refused |
| WriteChain.Writer.Put | packages/app/src/lib/iroh-wire.ts:228-237 | writing continues the frame at the head of the chain |
| WriteChain.Writer.Settle | packages/daemon/src/iroh-peer-server.ts:499-508 | a write that settles, well or not, lets the next one begin |
| HttpReader.IndexOf | packages/app/src/lib/iroh-fetch.ts:71-79 | finds the first match from a position, or none |
| HttpReader.FindStable | packages/app/src/lib/iroh-fetch.ts:71-79 | a match found in a prefix stays the first match in all the bytes |
| HttpReader.ResponseReader.ReadHead | packages/app/src/lib/iroh-fetch.ts:118-134 | the head is the bytes up to the first empty line of all that comes, whatever the pieces; the rest stays to be read |
| HttpReader.ResponseReader.ReadChunked | packages/app/src/lib/iroh-fetch.ts:158-178 | the chunks are `Dechunk` of all the bytes behind the head |
| HttpReader.ResponseReader.ReadPlain | packages/app/src/lib/iroh-fetch.ts:179-195 | exactly the first min(n, available) bytes, or all of them without a length, in nonempty pieces |
| HttpReader.Exchange | packages/app/src/lib/iroh-fetch.ts:118-195 | for any framing as a function of the head: the head is the bytes up to the first empty line; the body is the chunks of the bytes behind it, their first min(n, available), or all of them |
| HttpReader.AnyCut | packages/app/src/lib/iroh-fetch.ts:95-196 | two cuts of the same bytes into nonempty reads give the same head, body and, chunked, the same chunks |
| HttpReader.SizeLineParses | packages/app/src/lib/iroh-fetch.ts:161-171 | a chunk size by section 7.1 of RFC 9112, extension allowed, parses to its number |
| HttpReader.ParsesNumber | packages/app/src/lib/iroh-fetch.ts:161-171 | a size is read as `parseInt(text, 16)` does: blanks, a sign, `0x`, then digits, whatever follows |
| HttpReader.ParsesNone | packages/app/src/lib/iroh-fetch.ts:161-171 | and without a digit there it is no number |
| HttpReader.HexDigitIs | packages/app/src/lib/iroh-fetch.ts:161-171 | the digits are the sixteen, small or capital, and nothing else |
| HttpReader.UpcomingStops | packages/app/src/lib/iroh-fetch.ts:100-116 | an empty read ends the stream, whatever would come behind it |
| HttpReader.YieldsTheChunks | packages/app/src/lib/iroh-fetch.ts:158-178 | nonempty chunks encoded by section 7.1 of RFC 9112 come back as exactly those chunks, whatever follows the last |
| HttpReader.YieldsAsBytesArrive | packages/app/src/lib/iroh-fetch.ts:158-178 | the chunks of a prefix of the bytes are a prefix of the chunks |
| ProcessTree.ChildrenOf | packages/daemon/src/preview/ports.ts:52-63 | the children map has exactly the pairs of the process lines |
| ProcessTree.TreePids | packages/daemon/src/preview/ports.ts:112-123 | terminates on any parent relation and returns exactly the pids reachable from the roots, each once, each behind what it was found through |
| ProcessTree.PortsOf | packages/daemon/src/preview/ports.ts:66-81 | each pid has exactly the ports of its lines, each once |
| ProcessTree.TreePorts | packages/daemon/src/preview/ports.ts:84-109 | for each root the strictly ascending list of exactly the ports held by pids reachable from it |
| ProcessTree.TreePortsOf | packages/daemon/src/preview/ports.ts:91-107 | the same for one root, with the worklist loop |
| Identifier.Minter.Mint | packages/oc-client/src/identifier.ts:17-39 | mints the id of the next clock value |
| Identifier.IdSpells | packages/oc-client/src/identifier.ts:23-39 | an id is `msg_`, the number behind it modulo 2^48 in twelve hexadecimal digits, and one character of 62 for each random byte |
| Identifier.CounterCounts | packages/oc-client/src/identifier.ts:17-23 | with a clock that never goes back the counter behind an id is how many its millisecond has had |
| Identifier.PrefixOrder | packages/oc-client/src/identifier.ts:23-29 | the 12-digit prefixes compare as strings exactly as their numbers mod 2^48 |
| Identifier.IdOrder | packages/oc-client/src/identifier.ts:17-39 | so do whole ids when the numbers differ |
| Identifier.IncreasingIffRoom | packages/oc-client/src/identifier.ts:17-23 | with a clock that never goes back the numbers of the ids strictly increase if and only if, whenever the clock moves on, the millisecond before had at most 4096 ids for each millisecond moved |
| Identifier.EnoughRoom | packages/oc-client/src/identifier.ts:17-23 | no millisecond with more than 4096 ids is enough |
| Identifier.MintOrder | packages/oc-client/src/identifier.ts:17-39 | within one aligned window of 2^36 ms the ids are strictly increasing strings in mint order |
| Identifier.RevertShowsEarlier | packages/oc-client/src/transcript-reducer.ts:570-576 | so the string compare of a staged revert shows exactly the messages minted before the boundary |
| TranscriptReducer.FindLast | packages/oc-client/src/transcript-reducer.ts:70-75 | the backwards search finds the last row of an id |
| TranscriptReducer.EditLastContent | packages/oc-client/src/transcript-reducer.ts:119-134 | the backwards loop changes the last content item picked and nothing else |
| TranscriptReducer.DeltasJoin | packages/oc-client/src/transcript-reducer.ts:313-399 | however the deltas of a part are cut and interleaved with events not about it, the fold is that of the others with one joined delta at the end |
| TranscriptReducer.SameText | packages/oc-client/src/transcript-reducer.ts:313-399 | two streams with the same other events and the same joined text leave the same rows |
| TranscriptReducer.EndForgetsDeltas | packages/oc-client/src/transcript-reducer.ts:313-399 | after a part has ended the rows equal those of the run without its deltas, unless a new part of the kind began in the message |
| TranscriptContents.EditTells | packages/oc-client/src/transcript-reducer.ts:103-498 | an edit of a message sets its own data and its content as told, a new item behind or the last item it fits and no other, and leaves every other row and a message that is not there alone |
| TranscriptContents.PartSaysItsDeltas | packages/oc-client/src/transcript-reducer.ts:313-399 | over any run: a part that has started and got only deltas says what they join up to, whatever else went on |
| TranscriptContents.ToolLife | packages/oc-client/src/transcript-reducer.ts:360-485 | over any run: a tool call from its start to its end has the times of start, call and end, the input it was called with, and the result or the failure |
| TranscriptContents.StepLife | packages/oc-client/src/transcript-reducer.ts:280-312 | over any run of its edits: a step has the time, agent and model of its start and is open until its end or failure closes it at that time |
| TranscriptContents.StepStartTells | packages/oc-client/src/transcript-reducer.ts:500-545 | a step that starts anew is an empty row behind the others; one tried again keeps its content and forgets how it ended |
| TranscriptContents.StepCloses | packages/oc-client/src/transcript-reducer.ts:525-533 | and the open step before one that starts anew is closed at that time |
| TranscriptContents.InboxTells | packages/oc-client/src/transcript-reducer.ts:194-252 | an inbox item takes the place of the row of its id or comes last; delivery moves it to the end with its time; a cancelled one goes |
| TranscriptContents.InputLife | packages/oc-client/src/transcript-reducer.ts:194-252 | over any run: an input has its time in the inbox until its delivery, which puts it last, and that of the delivery from then on |
| TranscriptContents.WordsTell | packages/oc-client/src/transcript-reducer.ts:253-279 | words of the agent and instructions come last under the number of their event, once |
| TranscriptReducer.OthersCommute | packages/oc-client/src/transcript-reducer.ts:189-498 | an event not about a part commutes with any change of that part |
| TranscriptReducer.EventKeepsDistinct | packages/oc-client/src/transcript-reducer.ts:189-498 | every event keeps row ids distinct |
| TranscriptReducer.FoldKeepsDistinct | packages/oc-client/src/transcript-reducer.ts:189-498 | so does every run |
| TranscriptReducer.OthersStay | packages/oc-client/src/transcript-reducer.ts:189-545 | rows an event does not name keep content and order, but for the open row a fresh step closes |
| TranscriptReducer.StepOpensOne | packages/oc-client/src/transcript-reducer.ts:500-545 | when a started step leaves at most one assistant row open, and only then |
| TranscriptReducer.ReopenLeavesTwo | packages/oc-client/src/transcript-reducer.ts:507-523 | reopening a done step while another is open leaves two open |
| TranscriptReducer.MergeProjection | packages/oc-client/src/transcript-reducer.ts:553-563 | the map, the replacement and the filter loop compute `Merge` |
| TranscriptReducer.MergeIs | packages/oc-client/src/transcript-reducer.ts:553-563 | ids stay distinct, local rows keep their places, fetched rows win, new ones come behind |
| TranscriptReducer.UnknownInOrder | packages/oc-client/src/transcript-reducer.ts:561-562 | the new rows come in the order of the page |
| TranscriptReducer.MergeIdempotent | packages/oc-client/src/transcript-reducer.ts:553-563 | merging the same page twice is merging it once |
| TranscriptRows.RowsOf | packages/desktop/src/components/transcript-rows.ts:150-291 | the one-pass layout with its group, turn and output variables computes `Rows`; opened out, its rows are exactly one line for each place of the messages that shows one, in order |
| TranscriptRows.RowBuilder.Take | packages/desktop/src/components/transcript-rows.ts:150-291 | one shown thing is placed: grouped, or behind the closed group |
| TranscriptRows.RowsShowMessages | packages/desktop/src/components/transcript-rows.ts:198-288 | told by the messages alone: a prompt, each text and thought that is not blank, each tool call by its kind, each note by its message have their one line; blank text, todo lists and waiting questions none |
| TranscriptRows.DigitsSpell | packages/desktop/src/components/transcript-rows.ts:220 | the number in the key of a part is the number of the part |
| TranscriptRows.BlankIsTrimmed | packages/desktop/src/components/transcript-rows.ts:222-228 | blank is what trims to nothing |
| TranscriptRows.RowsLaidOut | packages/desktop/src/components/transcript-rows.ts:150-291 | groups are nonempty, keyed by their first item and never adjacent; a text row has its line exactly when it is the last text of a finished turn |
| TranscriptRows.PromptCutsMessages | packages/desktop/src/components/transcript-rows.ts:163-185 | a prompt ends the turn before it: the rows are those of a session that ended there and those of one that began with the prompt |
| TranscriptRows.LineOfTurn | packages/desktop/src/components/transcript-rows.ts:163-185 | the line under a turn names the model of its last message that says something and the time from the prompt to the latest step done, told by the messages alone |
| GroupKeys.KeyKeeper.Keep | packages/desktop/src/components/transcript-rows.ts:301-320 | the keeping loop over `seen` and `used` computes `Kept` and remembers the new keys |
| GroupKeys.KeyKeeper.FirstEarlier | packages/desktop/src/components/transcript-rows.ts:308-313 | the key of the first item seen before whose key is free |
| GroupKeys.CarriedKeyOnce | packages/desktop/src/components/transcript-rows.ts:301-320 | a carried key is never given to a group when an earlier one has it, on any rows |
| GroupKeys.KeysDistinctIff | packages/desktop/src/components/transcript-rows.ts:301-320 | on any rows and any memory of keys: the keys of a build are distinct if and only if no group falls back to its own key when a group before it has taken that, who takes what being told by the rows and the memory alone |
| GroupKeys.ClashIff | packages/desktop/src/components/transcript-rows.ts:301-320 | after a good build, whatever was split or joined since: two groups share a key if and only if one begins with the item that named its old group and groups before it have taken every key its items carry |
| GroupKeys.SplitClashIff | packages/desktop/src/components/transcript-rows.ts:301-320 | when groups are only split: if and only if a later part begins with the item that named the group and an earlier part has another item of it |
| GroupKeys.SplitSharesKey | packages/desktop/src/components/transcript-rows.ts:301-320 | a group that splits after growing in front gives two groups one key |
| GroupKeys.RunKeepsKeys | packages/desktop/src/components/transcript-rows.ts:301-320 | over any run of builds that only adds items and splits no group, all keys of a build are distinct |
| GroupKeys.GroupKeepsKey | packages/desktop/src/components/transcript-rows.ts:301-320 | then a group keeps its key at whichever end it grows, a merged one that of its first earlier item |
| GroupKeys.KeyAlongRun | packages/desktop/src/components/transcript-rows.ts:301-320 | from any build to any later one of such a run the key is that of the row its line of first earlier items began in |
| GroupKeys.GroupKeepsKeyThroughout | packages/desktop/src/components/transcript-rows.ts:301-320 | from any build to any later one a group keeps its key as long as no other is joined to it |
| PortScanner.OneScanAtATime | packages/daemon/src/preview/registry.ts:533-545 | in every interleaving at most one scan is active |
| PortScanner.AnswersAreFresh | packages/daemon/src/preview/registry.ts:533-545 | a promise `checkPorts` returned fulfils only after a scan begun at or after the call has finished |
| PortScanner.NeverAnsweredIff | packages/daemon/src/preview/registry.ts:533-545 | at any call in any run: no continuation fulfils the promise returned if and only if a scan is under way and the one the queued check waits for has already settled with failure |
| PortScanner.AllAnswered | packages/daemon/src/preview/registry.ts:533-545 | while no scan fails every caller is answered |
| PortScanner.PoisonedCall | packages/daemon/src/preview/registry.ts:540-544 | once a scan with a queued check failed, that check stays for good: a later call is doomed if and only if a scan is under way, and then gets the promise of that check |
| PortScanner.PoisonHappens | packages/daemon/src/preview/registry.ts:540-544 | a run that gets there |
| PortScanner.Scanner.CheckPorts | packages/daemon/src/preview/registry.ts:533-545 | one call is one step of the model and returns its promise |
| PortScanner.Scanner.OnFinally | packages/daemon/src/preview/registry.ts:535-537 | the end of a scan clears `checking` |
| PortScanner.Scanner.OnThen | packages/daemon/src/preview/registry.ts:540-543 | the queued check clears itself and calls again |
| NameLock.OneAtATimeInOrder | packages/daemon/src/preview/registry.ts:656-665 | operations of one key run one at a time in call order |
| NameLock.NeverStuck | packages/daemon/src/preview/registry.ts:656-665 | while an operation has not settled, it or an earlier one of its key can go on |
| NameLock.NothingLeft | packages/daemon/src/preview/registry.ts:661-663 | when each call has cleaned up the map is empty |
| Registry.StepInv | packages/daemon/src/preview/registry.ts:217-502 | what every step of starts, stops, re-checks, exit events and unloads keeps |
| Registry.RunningIsShown | packages/daemon/src/preview/registry.ts:381-461 | a running server is the one its name shows: never replaced, never dropped, the only one of its name |
| Registry.OneAtATime | packages/daemon/src/preview/registry.ts:173-181 | `start` and `stop` of one name never overlap and keep call order |
| Registry.ShellKeepsItsEntry | packages/daemon/src/preview/registry.ts:410-430 | every shell `create` returned has its entry under its name until that ended |
| Registry.RunLasts | packages/daemon/src/preview/registry.ts:499-502 | entries are never lost, status goes only from running to ended, a pid once known stays |
| Registry.StopLeavesItsCause | packages/daemon/src/preview/registry.ts:217-260 | a stop that answers "Stopped" leaves its own cause on the entry the name shows, whatever came between |
| Registry.CauseIsFinal | packages/daemon/src/preview/registry.ts:464-502 | the cause of an ended server is final if and only if no re-check and no stop of it is under way |
| Registry.RecheckTells | packages/daemon/src/preview/registry.ts:464-502 | what a re-check does with each answer: no shell or one that no longer runs ends the server, by the reason left for its shell, else its own exit, else from outside; one that runs gives a missing pid; no answer changes no entry |
| Registry.ExitTells | packages/daemon/src/preview/registry.ts:319-329 | an exit event ends the server of its shell, with the same reasons, once |
| Registry.BeginTells | packages/daemon/src/preview/registry.ts:381-409 | `start` re-checks a server that runs and else goes on to create one if it was given a command; `stop` re-checks the server there is; nothing else changes |
| Registry.ResumeTells | packages/daemon/src/preview/registry.ts:389-461 | behind the re-check each job answers, goes on or waits by what its server is by then and by whether the re-check failed; only a stop leaves a word, and only for a server that runs |
| Registry.UnloadBeginTells | packages/daemon/src/preview/registry.ts:336-341 | an unload marks exactly the shells of the servers that run in its directory |
| Registry.UnloadEndTells | packages/daemon/src/preview/registry.ts:363-372 | it takes exactly those marks away and ends, as unloaded, exactly those of its servers that still run |
| Registry.GoneForGood | packages/daemon/src/preview/registry.ts:389-461 | in any run from there that server runs no more, and no `start` takes it for running |
| Registry.RecheckOverStop | packages/daemon/src/preview/registry.ts:464-471 | a run in which a re-check begun before the stop overwrites the cause after "Stopped" |
| Registry.BlameIsFair | packages/daemon/src/preview/registry.ts:484-497 | an exit blames a stop or an unload only while one is under way, else the process or the outside by its status |
| Registry.AnswersAreTrue | packages/daemon/src/preview/registry.ts:217-461 | every answer of `start` and `stop` is true of the registry when it is given |
| Registry.UnloadEndsThem | packages/daemon/src/preview/registry.ts:336-373 | when an unload is over every server that ran when it began has ended |
| Registry.RestartKeepsRunning | packages/daemon/src/preview/registry.ts:614-645 | what is written and read back is exactly the running servers, each under its name |
| Registry.PreviewRegistry.constructor | packages/daemon/src/preview/registry.ts:614-626 | loading keeps the last running entry of each name |
| Registry.PreviewRegistry.Locked | packages/daemon/src/preview/registry.ts:656-665 | a call chains behind the last of its key |
| Registry.PreviewRegistry.Enter | packages/daemon/src/preview/registry.ts:381-388 | the first segment of `start` or `stop` |
| Registry.PreviewRegistry.Proceed | packages/daemon/src/preview/registry.ts:389-401 | the segments behind an awaited re-check |
| Registry.PreviewRegistry.Enlist | packages/daemon/src/preview/registry.ts:410-430 | the entry of a created shell replaces the one of its name |
| Registry.PreviewRegistry.Wake | packages/daemon/src/preview/registry.ts:440-442 | one turn of the wait loop asks the shell again |
| Registry.PreviewRegistry.Unlock | packages/daemon/src/preview/registry.ts:661-663 | the key is cleared only by the last of its calls |
| Registry.PreviewRegistry.FinishStop | packages/daemon/src/preview/registry.ts:244-258 | the last segment of `stop` |
| Registry.PreviewRegistry.Heard | packages/daemon/src/preview/registry.ts:464-471 | a re-check behind its await, with no second look at the status |
| Registry.PreviewRegistry.ShellExited | packages/daemon/src/preview/registry.ts:319-329 | ends the running server of the shell, if a name shows one |
| Registry.PreviewRegistry.BeginUnload | packages/daemon/src/preview/registry.ts:336-341 | marks the shells of the running servers |
| Registry.PreviewRegistry.EndUnload | packages/daemon/src/preview/registry.ts:363-372 | unmarks them and ends what still runs |
| Unload.Unloaded | packages/daemon/src/preview/registry.ts:343-362 | the polling loops produce exactly the events of `Unloading`, against any behaviour of the processes |
| Unload.WaitForExit | packages/daemon/src/preview/registry.ts:349-355 | one bounded wait: its events and what is left |
| Unload.ReleasedOnceThenCaptured | packages/daemon/src/preview/registry.ts:343-362 | released once before anything else, only captured processes looked at or signalled, at most 20 sleeps |
| Unload.SignalledAfterTheWait | packages/daemon/src/preview/registry.ts:356-362 | SIGTERM only to those seen alive after 12 polls, SIGKILL only to those seen alive after 8 more |
| Unload.NoneSurvivesUnseen | packages/daemon/src/preview/registry.ts:343-362 | in the end every captured process was seen gone or was sent SIGKILL |
| Unload.KilledUnaskedIff | packages/daemon/src/preview/registry.ts:349-362 | a pid gets SIGKILL without SIGTERM if and only if some are left after each wait, the first look for who is left finds it gone and the second finds it there |
| Unload.KilledWereAsked | packages/daemon/src/preview/registry.ts:356-362 | so while no pid is taken again, whatever gets SIGKILL had got SIGTERM |
| Unload.TakenNumberIsKilled | packages/daemon/src/preview/registry.ts:349-362 | with a pid taken again one can get SIGKILL without SIGTERM |
| Connection.StepInv | packages/app/src/lib/daemon-client-context.tsx:252-491 | what every step of connect, pair, unpair, timers and drops keeps |
| Connection.FacadeAlternates | packages/app/src/lib/daemon-client.ts:674-689 | attach and detach strictly alternate and the facade holds what the provider holds |
| Connection.NoWaiterOrphaned | packages/app/src/lib/daemon-client.ts:654-689 | every promise but the last has resolved, the last exactly while attached: no waiting RPC is orphaned |
| Connection.PromisesResolveOnce | packages/app/src/lib/daemon-client.ts:654-689 | promises are only added and resolve once |
| Connection.InPlaceOrClosed | packages/app/src/lib/daemon-client-context.tsx:281-458 | once its attempt is over a transport is the one in place or closed, if and only if it was not leaked; without storage failures none is |
| Connection.StorageFailureLeaks | packages/app/src/lib/daemon-client-context.tsx:417-431 | every failed storage call with a transport in hand leaks it for good |
| Connection.SupersededIsSilent | packages/app/src/lib/daemon-client-context.tsx:297-383 | a superseded attempt never attaches, shows a status or arms a timer; it still publishes the record it loaded |
| Connection.NoRecordAfterUnpairIff | packages/app/src/lib/daemon-client-context.tsx:297-312 | once the store of an unpair is cleared, until the user starts anew, the status stays "unpaired" with nothing attached and no retry set; no record is shown beside it if and only if no connect had yet to read the store as `unpair` was called |
| Connection.RecordAfterUnpair | packages/app/src/lib/daemon-client-context.tsx:312 | from every state with a connect yet to read the store a run that ends unpaired with a paired record |
| Connection.UnpairedOverPairIff | packages/app/src/lib/daemon-client-context.tsx:466-478 | in any run: an unpair whose store is cleared shows "unpaired" over a transport if and only if a pair or connect later than it attached one that was not let go of since |
| Connection.UnpairedOverPair | packages/app/src/lib/daemon-client-context.tsx:466-478 | from every state with a store to be cleared a run that ends "unpaired" over a connected pair |
| Connection.TimerConnects | packages/app/src/lib/daemon-client-context.tsx:261-279 | a timer that goes off is of the current epoch and always connects |
| Connection.OneTimer | packages/app/src/lib/daemon-client-context.tsx:223-279 | at most one timer is set, of the current epoch, never beside an attempt of it |
| Connection.RetryIsSet | packages/app/src/lib/daemon-client-context.tsx:252-267 | while a transport is in place a retry is set if and only if its drop was heard and nothing was attempted since |
| Connection.DialFailedTells | packages/app/src/lib/daemon-client-context.tsx:316-354 | a current connect that cannot reach the daemon is offline with exactly one retry, of the next attempt; one of another version is an error with none |
| Connection.MismatchIsFinal | packages/app/src/lib/daemon-client-context.tsx:325-345 | after a version mismatch nothing is dialed, attached or retried in any run until the user starts anew |
| Connection.RetriesGoOn | packages/app/src/lib/daemon-client-context.tsx:346-353 | behind every retry that goes off there is a run to the next, its attempt counted on |
| Connection.BeginningsTell | packages/app/src/lib/daemon-client-context.tsx:281-297 | every new attempt, an unpair and an unmount stop the timer; all but a pair let go of the transport, detached and closed; each has the next epoch |
| Connection.StoreTells | packages/app/src/lib/daemon-client-context.tsx:299-312 | a record is shown and dialed, none shows "unpaired" and a failure the error, the last two only if current |
| Connection.TransportTells | packages/app/src/lib/daemon-client-context.tsx:355-374 | a current connect puts the transport in place, attached and with its handler; a superseded attempt closes it and changes nothing else |
| Connection.PairTells | packages/app/src/lib/daemon-client-context.tsx:424-447 | a pair swaps the transports exactly when the record is there and it is current, and else closes its own |
| Connection.DropTells | packages/app/src/lib/daemon-client-context.tsx:252-267 | a drop heard of the current attempt is shown and leaves exactly one timer, of the first retry; any other leaves the timers as they were |
| Connection.DaemonClient.AttachTransport | packages/app/src/lib/daemon-client.ts:674-677 | attaches and resolves the promise |
| Connection.DaemonClient.DetachTransport | packages/app/src/lib/daemon-client.ts:682-689 | detaches and makes a new promise |
| Connection.DaemonClientProvider.Reconnect | packages/app/src/lib/daemon-client-context.tsx:281-297 | the synchronous part of `connect` |
| Connection.DaemonClientProvider.BeginPair | packages/app/src/lib/daemon-client-context.tsx:407-412 | the synchronous part of `pair` |
| Connection.DaemonClientProvider.BeginUnpair | packages/app/src/lib/daemon-client-context.tsx:466-473 | the synchronous part of `unpair` |
| Connection.DaemonClientProvider.HaveRecord | packages/app/src/lib/daemon-client-context.tsx:300-312 | `connect` behind the store |
| Connection.DaemonClientProvider.DialThrew | packages/app/src/lib/daemon-client-context.tsx:316-354 | `connect` behind a failed dial |
| Connection.DaemonClientProvider.HaveTransport | packages/app/src/lib/daemon-client-context.tsx:355-374 | `connect` and `pair` with a transport |
| Connection.DaemonClientProvider.HavePairedRecord | packages/app/src/lib/daemon-client-context.tsx:424-447 | `pair` behind its second look at the store |
| Connection.DaemonClientProvider.TransportDropped | packages/app/src/lib/daemon-client-context.tsx:252-267 | an unexpected close |
| Connection.DaemonClientProvider.TimerFired | packages/app/src/lib/daemon-client-context.tsx:261-279 | the timer callbacks |
| RpcTransport.StepInv | packages/app/src/lib/daemon-client.ts:471-619 | what every step of requests, replies, pings, closes and wire failures keeps: the pending map has exactly the requests that wait |
| RpcTransport.OutcomeOnce | packages/app/src/lib/daemon-client.ts:526-602 | an outcome is given once |
| RpcTransport.OutcomeIsTold | packages/app/src/lib/daemon-client.ts:526-619 | in any run a request is answered or fails only by a reply of its id that says so, is refused only by the wire, and is closed off only by a close after it was made |
| RpcTransport.ReplyTells | packages/app/src/lib/daemon-client.ts:594-602 | a reply settles the waiting request of its id by what it is, and no other |
| RpcTransport.CloseSettlesAll | packages/app/src/lib/daemon-client.ts:606-619 | the wire's close settles every request made before it fired |
| RpcTransport.HangsIff | packages/app/src/lib/daemon-client.ts:526-540 | a waiting request can never settle any more if and only if the wire's close has fired and the read loop has ended or was closed |
| RpcTransport.LateRequestHangs | packages/app/src/lib/daemon-client.ts:526-540 | a request made then hangs |
| RpcTransport.AskedAfterDrop | packages/app/src/lib/daemon-client.ts:606-619 | a run in which the drop is heard and a request made behind it hangs |
| RpcTransport.HeardIff | packages/app/src/lib/daemon-client.ts:606-619 | the unexpected-close handler is called exactly when the close fires while the transport listens, a handler is set and the close is not its own; at most once |
| RpcTransport.UnheardStays | packages/app/src/lib/iroh-wire.ts:258-264 | a close that fired before anyone listened is never heard of |
| RpcTransport.UnheardHappens | packages/app/src/lib/iroh-wire.ts:258-264 | a run that gets there |
| RpcTransport.ProbeCloses | packages/app/src/lib/daemon-client.ts:483-524 | a pong deadline that passes closes the wire, stops the timers and leaves no earlier request waiting |
| RpcTransport.ProbeTells | packages/app/src/lib/daemon-client.ts:483-524 | a tick pings unless a pong is due; the pong makes it due no more; a refused ping closes the wire |
| RpcTransport.Transport.InstallHandlers | packages/app/src/lib/daemon-client.ts:549-552 | the transport listens to the wire and starts the probe |
| RpcTransport.Transport.OnTick | packages/app/src/lib/daemon-client.ts:483-500 | one turn of the ping interval: skipped while a pong is due |
| RpcTransport.Transport.Send | packages/app/src/lib/daemon-client.ts:526-540 | a request goes to the pending map and fails alone when the wire refuses it |
| RpcTransport.Transport.Route | packages/app/src/lib/daemon-client.ts:594-602 | a reply settles the request of its id, if one waits |
| RpcTransport.Transport.RejectPending | packages/app/src/lib/daemon-client.ts:608-610 | the loop that rejects what is pending |
| RpcTransport.Transport.OnTransportClosed | packages/app/src/lib/daemon-client.ts:606-619 | what the transport does when its wire closes |
| RpcTransport.Transport.Fire | packages/app/src/lib/iroh-wire.ts:258-264 | the wire's close fires once |
| RpcTransport.Transport.CloseIt | packages/app/src/lib/daemon-client.ts:471-479 | an intentional close |
| Protocol.TotalOrder | packages/protocol/src/index.ts:80-104 | the precedence is a total order in which only equal versions are the same |
| Protocol.OrderChains | packages/protocol/src/index.ts:80-104 | it is transitive |
| Protocol.CompareIsPrecedence | packages/protocol/src/index.ts:80-104 | it is exactly the precedence of section 11 of Semantic Versioning 2.0.0 |
| Protocol.CompatibleIsEquivalence | packages/protocol/src/index.ts:76-85 | `isProtocolCompatible` is an equivalence on versions that parse |
| Protocol.CompatibleIsSameLine | packages/protocol/src/index.ts:53-85 | compatible is: on the same breaking line |
| Protocol.SameSideIsOutdated | packages/protocol/src/index.ts:100-104 | on a mismatch both ends name the same peer, the lower one |
| PeerServer.NothingBeforeHello | packages/daemon/src/iroh-peer-server.ts:377-480 | no command handled, no ping answered, no version accepted before a compatible hello of that connection |
| PeerServer.GreetedOnce | packages/daemon/src/iroh-peer-server.ts:393-424 | a connection gets `server_info` at most once |
| PeerServer.FramesAnswered | packages/daemon/src/iroh-peer-server.ts:377-480 | in any run every frame heard has the answer it is due right behind it, and nothing else is sent but by handlers |
| PeerServer.CommandsInTurn | packages/daemon/src/iroh-peer-server.ts:444-480 | in any run every command of a greeted peer is handed to the handler once, in the order heard |
| PeerServer.SilentPeersGo | packages/daemon/src/iroh-peer-server.ts:308-343 | nobody stays without a hello: the timer of every such peer runs and takes it out |
| PeerServer.RefusedPeersGo | packages/daemon/src/iroh-peer-server.ts:398-440 | a refused peer is taken out once what was sent to it is written |
| PeerServer.NothingSentToTheGone | packages/daemon/src/iroh-peer-server.ts:484-485 | nothing is sent to a peer that is gone, and none comes back |
| PeerServer.RegisteredRunsOnce | packages/daemon/src/iroh-peer-server.ts:457 | a callback registered before the end is done runs exactly once |
| PeerServer.CallbackRunsOnce | packages/daemon/src/iroh-peer-server.ts:516-541 | a callback registered while the peer is in `peers`, or while its end is running the callbacks, runs exactly once |
| PeerServer.LateCallbackNeverRuns | packages/daemon/src/iroh-peer-server.ts:516-541 | one registered once the end is done never runs |
| PeerServer.ClosedIsRun | packages/daemon/src/iroh-peer-server.ts:516-541 | a whole close is a run of its steps |
| PeerServer.IrohPeerServer.Accept | packages/daemon/src/iroh-peer-server.ts:331-343 | a new connection gets a slot that is not verified, with its hello timer running |
| PeerServer.IrohPeerServer.ReadFrame | packages/daemon/src/iroh-peer-server.ts:364-480 | one turn of the read loop and the version gate |
| PeerServer.IrohPeerServer.SendFrame | packages/daemon/src/iroh-peer-server.ts:484-509 | a frame is sent only while the peer is there |
| PeerServer.IrohPeerServer.Shut | packages/daemon/src/iroh-peer-server.ts:516-541 | removes the peer and runs its callbacks in order |
| PeerServer.IrohPeerServer.Stop | packages/daemon/src/iroh-peer-server.ts:178-183 | closes every peer |
| Handshake.HelloHandshake.Happen | packages/app/src/lib/wire-transport.ts:110-175 | an open handshake settles by what happens, a settled one never changes |
| Handshake.FirstDecides | packages/app/src/lib/wire-transport.ts:75-175 | the first input that is not an idle frame settles it by what it is: resolved by a compatible version, else with the older side named, closed, timed out or not sent |
| Handshake.EndsAgree | packages/app/src/lib/wire-transport.ts:134-165 | the daemon's answer to a hello resolves the phone's handshake if and only if the daemon accepts, else names the same older side |
| PortForward.OneAtATime | packages/app/src/lib/port-forward.ts:93-135 | reconciles never overlap and run in order |
| PortForward.OneListenerPerPort | packages/app/src/lib/port-forward.ts:93-135 | no port ever has two listeners and none that is up is forgotten |
| PortForward.EndsOnTarget | packages/app/src/lib/port-forward.ts:93-135 | when a reconcile ends, open and failed ports are apart and together the target it read |
| PortForward.InStep | packages/app/src/lib/port-forward.ts:93-182 | when all asked for is done the listeners match what is wanted now; none in the background or unmounted |
| PortForward.GetsInStep | packages/app/src/lib/port-forward.ts:93-182 | as long as no link is broken a run with nothing wanted anew brings the listeners in step with what is wanted |
| PortForward.GetsToServe | packages/app/src/lib/port-forward.ts:138-176 | a new list heard in the foreground, and the list there is once the app is back, are brought about while no link is broken |
| PortForward.OffWhenAway | packages/app/src/lib/port-forward.ts:163-182 | unmounted, or in the background until the app is back, nothing listens when all asked for is done |
| PortForward.OutOfStepForGoodIff | packages/app/src/lib/port-forward.ts:93-108 | in any run: no continuation at all brings them in step with what is wanted now if and only if a link is broken and they are out of step |
| PortForward.BrokenForGood | packages/app/src/lib/port-forward.ts:108 | after a failed endpoint lookup nothing is reconciled any more, nor told |
| PortForward.LeftListening | packages/app/src/lib/port-forward.ts:106-108 | a run from the mount: the lookup for a second port fails and the first goes on listening in the background |
| PortForward.OpeningTells | packages/app/src/lib/port-forward.ts:114-131 | a port that opens is open and no longer told as failed; one that does not is told with its reason |
| PortForward.PortForwarder.Reconcile | packages/app/src/lib/port-forward.ts:95-133 | one reconcile from end to end, the endpoint lookup failing or not: which ports are open, which failed and why, which listeners stay, and that a failed lookup leaves the chain broken with nothing told |
| PortForward.PortForwarder.CloseOthers | packages/app/src/lib/port-forward.ts:98-102 | the closing loop |
| PortForward.PortForwarder.OpenMissing | packages/app/src/lib/port-forward.ts:114-131 | the opening loop |

## Left out

- Text parsing around the models: the JSON of frames, `TextDecoder`, the status line and header lines of a response (a response's framing is any function of its head), the splitting of `ps` and `lsof` output into numbers, and version strings (a version is parsed or not).
- WriteChain.TextReadsIff: says nothing of a piece shorter than a header, whose rest mixes with a length and not with a text; for that the place of each frame decides (`WriteChain.ReadsOnlySentIff`), as what is delivered can look like what was sent by chance (`WriteChain.LooksAlike`).
- HttpReader.ResponseReader.ReadChunked: sizes are exact integers, while `parseInt` rounds above 2^53; white space before a size is ASCII only.
- Protocol.TotalOrder: the semver library compares numeric pre-release parts above 2^53 as text; here they are numbers.
- Bit operations are written as divisions and remainders by powers of two.
- The port polling of `stop` and the reading of output are waits without effect on the entries, so they are part of one await.
- The last port check and output read of `start` come after its answer's look at the status and change nothing here.
- Registry.RestartKeepsRunning: is about a file written at that moment; a change that is not followed by a save, such as a pid learnt by a re-check, waits for the next one.
- What a port scan does with the ports it found, the push of snapshots and ports to listeners, and the watch timer.
- Listeners that throw: for the port check that is a scan that rejects, elsewhere they are taken not to.
- `initialized`, the reason texts, delays and React's batching are not in the connection's state; the requests of a transport are a model of their own.
- Eventual reconnection is not claimed: a pair that fails takes the retry away.
- The accept path, admission of unknown clients and the tunnels come before a slot exists.
- PeerServer.IrohPeerServer.Shut: runs callbacks that register none themselves; the step model lets them.
- PortForward.OneListenerPerPort: a forwarder's `close` is taken to end it; the module state of other mounts is only the starting `failed` map.
- The wire's diagnostics, the endpoint and HTTP connection caches, and a transport's git and preview callbacks.
- RpcTransport.HangsIff: request ids are taken to be fresh, as random UUIDs are.
- TranscriptReducer.OthersStay: files, agents, skills and descriptions of inputs are one opaque payload.
- TranscriptRows.RowsOf: group labels, tool titles and durations as text; the blank test is over the white space of `trim` in the basic plane.
- The proxies, the opencode client, the router, the tools, settings, tab lists and all views: thin wrappers or no state worth a proof.
