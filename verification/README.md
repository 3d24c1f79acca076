# webexec: mark and restore, verified

A Dafny model of the terminal agent's mark/restore engine and of the small protocols and
file formats around it. `dafny verify dfyconfig.toml` checks everything.

What the modules are about:

- `Residue`, `Ring`, `Buffers`: the output buffer of a pane. `Ring` is the buffer on values,
  its meaning as an unbounded log with marked positions, and the exact behaviour of the
  replay loop. `Buffers` is the object that is updated in place, with the log as history.
- `Registry`, `Panes`: the client registry, whose delete is by key and not by identity, and the
  pane table.
- `StepSystem`: the agent as a step system, including the replays that never end and what waits
  for them. One step is one control-message handler, one channel-open callback, one iteration of a
  pane's sender, one timer callback or one Kill.
- `Agents`: the same operations with their loops and in-place updates, each proved equal to a step.
- `Ledger`, `Schedule`: the books of a run. What each step sends to each channel, how many registrations
  it leaves, which phase each pane is in and which replays are scheduled, told without the step system's
  own functions.
- `MarkRestore`, `VisitExample`: what every run keeps, and the mark, detach, reattach, replay protocol.
- `Pipeline`, `EndToEnd`: read loops, the bounded channel and the senders of a pane, and what a
  client has seen of the tty.
- `Acks`: requests over the control channel and their acks.
- `Decimal`, `Labels`: the channel labels that create panes and reconnect to them.
- `ScreenDump`: the screen dump against a terminal that understands SGR and CUP
  (sections 8.3.117 and 8.3.21 of ECMA-48).
- `Fingerprints`: the file of authorized fingerprints.

Where the code and its own words differ, the model follows the code:

- The comment at peers/buffer.go:48-50 promises everything since a mark, or the whole buffer.
  The exit test of the loop runs before the wrap, so with a write index of 0 the replay of a
  live, non-empty marker never ends (`Ring.ReplayHangs`), and the replay of a lost marker leaves
  out the newest byte unless the write index is 0 (`Ring.ReplayDropsNewest`). `Ring.DocumentedIff`
  gives the exact condition. `Buffers.Buffer.GetSinceMarkerCounted` counts the bytes it owes instead
  and keeps the promise everywhere; `Ring.Repaired` is the value it returns.
- docs/api.md says that a mark stops the output to the client. handleMark does not do that: output
  goes on until the channel closes, which is why the old channel's output and the replay overlap.
- The log line at peers/pane.go:194 speaks of the third empty read; the fourth one ends the loop.
- peers/cdc.go:17-18 says a nack's `ref` names the request. handleNack looks up the nack's own
  message id (peers/peer.go:398), so a nack can end another request than the one it names, which
  then waits on (`Acks.NackMisdirected`). It ends the named one exactly if the two ids agree
  (`Acks.NackEndsNamedIff`, `Acks.NackFindsNamedIff`).
- dumpVT assumes a pen of colour 0 on 0 (peers/pane.go:311), sends no cursor position first, and
  prints the low 24 bits of any colour that is not the default of its own plane, such as a default
  foreground swapped into the background. From the start of any line, `ScreenDump.ScreenRecoveredIff`
  gives the exact condition; from the middle of a line the first line wraps and the screen is lost
  (`ScreenDump.WrongColumn`). `ScreenDump.TerminalFitsIff` says which terminals show every screen.
- addClients does not check that the file ends in a newline, and removeClients compares whole
  lines while the reader cuts at the first space. `Fingerprints.AddedLinesIff`,
  `Fingerprints.AddRemoveIff`, `Fingerprints.AddRemoveAnyIff` and `Fingerprints.RevokesExactlyIff`
  give the exact conditions.

A data channel is an identity: the registry compares the pointers that `dc.ID()` returns, which
are the same only for the same channel. The size of the buffer, 100000 in the source, is a
parameter of at least 1 everywhere.

## Model

| member | source | states |
|---|---|---|
| Ring.ReplayEndsIff | peers/buffer.go:57-75 | for any ring and id, some number of passes of the loop reaches the exit test exactly when start and stop agree or stop is not 0; otherwise no number does |
| Ring.AddRefines | peers/buffer.go:24-39 | after adding any bytes the ring stands for the longer log: write index, last window of cells, and every marker, which is -1 exactly if `size` or more bytes followed its mark |
| Ring.RunRefines | peers/buffer.go:24-82 | after any sequence of adds, marks and consumed reads the ring refines the concatenation of all added bytes and the true positions of the unconsumed marks |
| Ring.MarkerFate | peers/buffer.go:24-46 | over any run: an entry exists exactly for an unconsumed mark, is -1 exactly if at least `size` bytes were added since, and a live one lags the write index by the bytes added since |
| Ring.ReplayReturns | peers/buffer.go:51-82 | a replay that ends returns, read on the log: everything since a live mark; for a lost one the last `size` bytes, without the newest unless the length is a multiple of the size; for an unmarked id the bytes since the writer last stood at cell 0 |
| Ring.DivergesIff | peers/buffer.go:57-75 | in a reachable state the loop never ends exactly for a live non-empty replay at a length that is a multiple of the size, or a lost marker at a length of 1 modulo a size of at least 2 |
| Ring.DocumentedIff | peers/buffer.go:48-75 | the loop ends with the documented result exactly under a condition on the length, the size and the mark's position |
| Ring.ReplayHangs | peers/buffer.go:69-75 | a run after which the replay of a live marker never ends |
| Ring.ReplayDropsNewest | peers/buffer.go:58-64 | for every size from 3 on, a run after which the replay of a lost marker lacks the newest byte |
| Ring.UnmarkedReplay | peers/buffer.go:57-75 | an id without a mark always replays, namely the last length-mod-size bytes, which is the whole log exactly while the ring was never full |
| Ring.RepairedKeepsPromise | peers/buffer.go:48-75 | the bytes a counting reader returns are the documented ones in every reachable state, and the code returns the same exactly where it keeps its comment |
| Ring.AddSplits | peers/buffer.go:24-39 | adding x and then y leaves the same cells, index and markers as adding x followed by y |
| Ring.AddInvalidates | peers/buffer.go:32-36 | from any state, adding loses exactly the markers in the cyclic interval behind the write index, and keeps every other value |
| Ring.ConsumeLeavesOthers | peers/buffer.go:76-79 | consuming one marker changes neither whether nor what any other id replays |
| Buffers.Buffer.constructor | peers/buffer.go:17-21 | the new buffer stands for the empty log without marks |
| Buffers.Buffer.Add | peers/buffer.go:24-39 | in place: the log grows by exactly the bytes, marks keep their positions, and the state is the ring's after the same bytes |
| Buffers.Buffer.InvalidateAtEnd | peers/buffer.go:32-36 | the loop over the marker map turns exactly the markers at the write index into -1, in any iteration order |
| Buffers.Buffer.Mark | peers/buffer.go:42-46 | the id now stands at the end of the log; nothing else changes |
| Buffers.Buffer.Collect | peers/buffer.go:70-75 | the wrapping loop returns the cells from start on up to stop, in cyclic order |
| Buffers.Buffer.GetSinceMarker | peers/buffer.go:51-82 | whenever the loop ends it returns the log positions above, deletes that marker only (none for -1) and leaves cells and index alone |
| Buffers.Buffer.GetSinceMarkerCounted | peers/buffer.go:48-82 | a loop that counts the bytes it owes instead of comparing indices: it always ends, returns the documented bytes for every id in every state, and deletes that marker only |
| Registry.ClientsDB.Add | peers/clients_db.go:32-40 | hands out an id above every earlier one and adds one entry without replacing any |
| Registry.ClientsDB.Len | peers/clients_db.go:43-45 | is the number of adds less the number of successful deletes |
| Registry.ClientsDB.All4Pane | peers/clients_db.go:62-73 | lists every client of the pane exactly once and nobody else |
| Registry.ClientsDB.All4Peer | peers/clients_db.go:48-59 | lists every client of the peer exactly once and nobody else |
| Registry.ClientsDB.Delete | peers/clients_db.go:76-87 | removes one entry with the same channel and pane, whichever comes first, or reports that there is none and changes nothing |
| Registry.ListingCounts | peers/clients_db.go:62-73 | a snapshot holds each channel as often as it is registered with the pane |
| Registry.DeleteStep | peers/clients_db.go:76-87 | although delete is by key, deleting along a snapshot keeps registrations and remaining snapshot entries of every dropped channel equal in number and touches no other registration |
| Registry.PanesDB.Add | peers/panes_db.go:21-28 | the pane gets the next id, from 1 on, which no pane had |
| Registry.PanesDB.All | peers/panes_db.go:31-41 | lists every pane exactly once |
| Registry.PanesDB.Delete | peers/panes_db.go:44-54 | removes that pane if present and says so |
| Registry.PanesDB.Get | peers/panes_db.go:57-62 | the pane of that id, and none exactly if no pane of the table has that id |
| StepSystem.InvStep | handlers.go:89-196 | every step keeps: pane keys in 1..nextID with matching ids, buffers refining their logs, no marker beyond the last one handed out, client ids below lastID, one pane per channel, no client of a stopped pane, and the channel and pane of every scheduled replay exist |
| Agents.Agent.SendChunk | peers/pane.go:215-241 | the loop over the snapshot ends as a multicast: every open channel of the pane got the chunk once per registration, no other channel changed, the registrations of its non-open channels are gone and all others kept, and the chunk is in the buffer |
| Agents.Agent.Kill | peers/pane.go:247-272 | however the deletes pick among duplicates: all clients of the pane are gone and its channels closed, all other registrations and channels are as before, the pane is not running |
| Agents.Agent.HandleMark | handlers.go:89-101 | one new id: the peer keeps it, the buffer of every pane is marked with it, no pane comes or goes, and the client is told that very id |
| Agents.Agent.NewPane | peers/pane.go:91-121 | an idle pane with an empty buffer under the next id |
| Agents.Agent.OpenAddedPane | handlers.go:175-196 | the channel has received exactly the welcome text, the pane runs if the command does, and one registration is added in any case |
| Agents.Agent.OpenLabelledPane | peers/peer.go:330-342 | the channel has received exactly the first message; the new pane runs, and is registered once, exactly if the command runs |
| Agents.Agent.Reconnect | peers/peer.go:350-371 | only a running pane is joined, with one registration (two for a label) under that channel, pane and peer and, if the peer has a marker, one scheduled replay; the channel has received nothing and is closed exactly if the pane exists and does not run |
| Agents.Agent.ReadReplay | peers/pane.go:382-387 | told on the log the buffer stands for: an open channel receives exactly the log span that is returned for the marker, no other channel changes, the buffer stands for the same log without that mark, and every other scheduled replay stays |
| Agents.Agent.Closing | peers/peer.go:363-365 | the close callback removes one registration with the same key if there is one, so one fewer is left |
| Ledger.OpenStep | peers/pane.go:215-272 | what each of the sixteen steps adds to an open channel (a chunk of its pane once per registration, what its own replay returns told on the log, a text, or nothing), and that only its close or the Kill of a pane it is registered with closes it |
| Ledger.NewStep | peers/peer.go:350-371 | a channel comes into being only by the three opening steps, with exactly their text, and open unless the pane of a reconnect exists and does not run |
| Ledger.ChannelLedger | peers/pane.go:215-241 | over every run each channel has received exactly the texts, chunks and replays that the steps sent it while it was open, in order |
| Ledger.RegistrationStep | peers/clients_db.go:32-87 | how many registrations of any channel with any pane every step leaves: one or two more on opening and reconnecting, one fewer after a close callback, none after a Kill or after a chunk met the closed channel, and otherwise as many as before |
| Ledger.PhaseChange | peers/pane.go:124-149 | a pane starts running only when its added command runs, stops only by Kill, and every other step leaves its phase |
| Ledger.PaneBorn | peers/panes_db.go:21-28 | a pane is new only after an add or a label, under the next id, and runs at once only behind a label |
| Schedule.ReplayLedger | peers/pane.go:364-388 | over every run the replays scheduled by reconnects are exactly those started and those still pending, as multisets |
| Schedule.ReplayWaits | peers/pane.go:384-386 | over every run a scheduled replay stays scheduled, as often as it was, until it itself is read or hangs |
| Schedule.ReadOnce | peers/pane.go:384-386 | over every run no replay is read twice |
| Schedule.OnlyStuckBuffersBlock | peers/buffer.go:24-82 | in every reachable world a started pane can always be sent any chunk unless its own buffer is stuck, a mark always completes unless some buffer is stuck, and a pending replay always either reads or hangs |
| MarkRestore.RunInv | handlers.go:89-196 | the invariant holds in every world of every run from boot |
| MarkRestore.PhasesOnward | peers/pane.go:124-149 | over any run a pane goes from idle to running to stopped and never back |
| MarkRestore.KillIsFinal | peers/pane.go:247-272 | at every later moment of any run a killed pane is stopped and has no client |
| MarkRestore.KillTwice | peers/pane.go:247-272 | a second Kill changes nothing |
| MarkRestore.MarkIsFresh | handlers.go:89-101 | in every reachable world a mark's id is in no pane's buffer and becomes the last id handed out and the peer's marker; it then stands at the end of every pane's log, or of the panes reached before a stuck buffer, and every marker already there keeps its value |
| MarkRestore.ReconnectReplays | handlers.go:49-61 | over any run the peer's last restore or mark before a reconnect decides what it schedules: after a restore of marker m exactly the replay of m for the new channel, after one of -1 none, after a mark the replay of the new id, and nothing for a pane that does not run |
| MarkRestore.ReadLeavesOthers | peers/buffer.go:51-82 | reading one marker leaves what every other id of every pane replays |
| MarkRestore.ReadsOrHangs | peers/pane.go:384-386 | in every reachable world a scheduled replay that gets the buffer's lock is either read or hangs, and the log's length and the mark's position say exactly which |
| MarkRestore.HangIsForever | peers/buffer.go:57-80 | the lock that a hung replay never gives back, as modelled, over any run: the pane's buffer grows no more, none of its replays is read, and no mark of any peer completes |
| MarkRestore.OtherPanesHearNothing | peers/pane.go:222-236 | a chunk reaches no channel registered with another pane |
| MarkRestore.MarkStays | handlers.go:89-101 | over any run a marker keeps its log position until that marker of that pane is read |
| MarkRestore.ReceivesOutput | peers/pane.go:217-240 | while a channel is registered n times and left alone it receives exactly the pane's chunks, n copies of each, in order |
| MarkRestore.ClosedIsSilent | peers/pane.go:225-235 | a closed channel receives nothing more and never reopens |
| MarkRestore.NoGapIff | handlers.go:89-130 | over every run with attach, mark, close, reconnect (by message or by label) and replay, whatever else happens: the old channel holds log[a..d]; the new one the live chunks of log[r..q], the replayed span and the live chunks of log[q..], each live chunk once or, after a label, twice; they cover the log from a on exactly if no output fell between d and r, or fewer than `size` bytes separate mark and replay, or the lost mark's window still reaches from d to r |
| MarkRestore.NoGap | peers/peer.go:350-371 | with fewer than `size` bytes between mark and replay no output is lost: live output up to the mark, the replay and one copy of the live output after it are the log from the first attach on; a channel registered once has nothing twice but the overlaps log[m..d] and log[r..q] |
| VisitExample.VisitHappens | handlers.go:89-130 | for all outputs x, w, y, z with fewer than `size` bytes after the mark and a replay that ends, whatever the length of x: a run in which a client sees x, marks, sees w, leaves, misses y, returns as a new peer, sees z and then receives w, y and z |
| VisitExample.FedVisitHappens | peers/pane.go:163-244 | the same run with a read loop and a sender in front of it, fed by non-empty reads |
| Pipeline.ReadLoop | peers/pane.go:163-208 | the loop hands on the data of every useful read before its end, each at the place given by the number of useful reads before it, and nothing else; it ends at the first error, end of file or fourth empty read in a row, or at the cancel |
| Pipeline.OnReadCounts | peers/pane.go:187-199 | the counter of empty reads decides as if the loop looked back over the last four reads |
| Pipeline.ConservedInEveryRun | peers/pane.go:163-244 | with any number of loops, in every interleaving: buffered, in-flight, queued and held chunks are together the chunks read, as multisets, and the queue stays within its bound |
| Pipeline.OrderedInEveryRun | peers/pane.go:163-244 | with the one loop of the add_pane path they are the chunks read, in order |
| Pipeline.InputIsChunks | peers/pane.go:163-208 | in every interleaving what enters the pipe is exactly what the read loop hands on of the same reads |
| Pipeline.CanDrain | peers/pane.go:163-244 | on the add_pane path, while the sender lives, every run can go on without another read until all that was read is in the buffer, in order |
| Pipeline.SecondLoopReorders | peers/peer.go:336-340 | with the second loop of the label path, a run that buffers two chunks in the wrong order |
| EndToEnd.LogIsTty | peers/pane.go:163-244 | on the add_pane path a pane's log followed by what is in flight, queued and held is, byte for byte, what error-free reads of the tty gave; so the log is a prefix of it in every run |
| EndToEnd.ClientSeesTty | peers/pane.go:163-244 | with a live marker, live output up to the mark, the replay, one copy of the live output after it and what is still under way are together exactly what the tty gave since the first attach |
| Acks.RunInv | peers/peer.go:373-474 | in every interleaving: ids, map, slots and handlers fit together, and every reply in a slot or a requester's hands came from a handled message with its key and body |
| Acks.IdsAreDistinct | peers/peer.go:419-426 | any two messages sent in a run carry different ids, and a requester's id is new to the map |
| Acks.MapHoldsExactly | peers/peer.go:443-473 | the map holds exactly the ids of requests still under way and of those whose send failed |
| Acks.NoCrossTalk | peers/peer.go:373-405 | a requester that returns a body got it from an ack naming its id, or from a nack whose own id is its id; the missing-channel error cannot occur |
| Acks.AckFindsNamedIff | peers/peer.go:373-388 | an ack is handed to the entry of the request it names exactly if the map has that id; otherwise its handler is done |
| Acks.AckReaches | peers/peer.go:373-474 | from any state of any run in which a request waits on an empty slot, an ack naming it can be put, taken and returned: the request ends with that body and its entry is gone |
| Acks.RequesterStays | peers/peer.go:443-473 | over every run a request and its entry change in steps of its own only, whatever other messages come and go |
| Acks.ReplyIsKept | peers/peer.go:443-473 | over every run a reply in the slot, even one that came while the message was still being sent, stays until the requester takes it |
| Acks.TakenIsReturned | peers/peer.go:457-473 | and the requester then returns exactly that reply |
| Acks.HandlerWaits | peers/peer.go:380-388 | over every run a handler waits until it has put its own body in |
| Acks.OneMessageWakesOne | peers/peer.go:380-388 | no message wakes two requesters |
| Acks.NackMisdirected | peers/peer.go:397-402 | a run with requests 1 and 2 waiting in which the nack for request 2, sent as message 1, ends request 1 and leaves request 2 waiting |
| Acks.NackEndsNamedIff | peers/peer.go:389-405 | over every run a requester that a nack wakes is the one it names exactly if the nack's own message id is the id it names |
| Acks.NackFindsNamedIff | peers/peer.go:389-405 | a nack naming a registered request is handed to that request's entry exactly under the same condition |
| Acks.NeverBlocks | peers/peer.go:383-387 | if no two received messages are looked up under one id, every handler can put its body in at once |
| Acks.StuckForever | peers/peer.go:383-387 | a handler in front of a full slot whose requester is past its select is blocked in every continuation |
| Acks.NotStuckCanFinish | peers/peer.go:457-469 | every other waiting handler can still finish |
| Acks.TwoAcksCanBlock | peers/peer.go:457-473 | a run in which a timeout, and then two acks of that request handled one after the other, block the second handler for good |
| Labels.JoinSplit | peers/peer.go:294 | splitting a label gives comma-free fields that join to the label |
| Labels.SplitJoin | peers/peer.go:294 | joining comma-free fields splits back into them |
| Labels.WinsizeRoundTrip | peers/cdc.go:75-82 | parsing inverts the printed size for all 16-bit rows and columns, whatever non-digit follows |
| Labels.WinsizeIff | peers/cdc.go:75-82 | exactly these texts are sizes: blanks, zeros and a printed 16-bit number, an `x`, blanks, zeros and a printed 16-bit number with no digit behind it, and then anything |
| Labels.AtoiIff | peers/peer.go:322 | exactly these texts are ids: an optional sign, zeros and a printed number within 64 bits |
| Labels.ReconnectRoundTrip | peers/pane.go:152-160 | `>` before the first message of a pane, with or without a size, is a reconnect to exactly its id |
| Labels.ReconnectIff | peers/peer.go:283-325 | a label reconnects to an id exactly if it is `>` and a numeral of that id, at the start or behind a size and a comma, followed by a comma or the end |
| Labels.ControlIff | peers/peer.go:294-303 | a label asks for the control channel exactly if it starts with `%` |
| Labels.FirstMessageTells | peers/pane.go:152-160 | the first message splits into the id and, if the pane has one, a size that parses back to the same rows and columns |
| Labels.SizedReconnect | peers/peer.go:305-329 | a reconnect behind a size reconnects to exactly its id |
| Labels.CommandRoundTrip | peers/peer.go:304-345 | a command joined behind a size is read back as that command and size exactly unless its first word is short or starts with `>` |
| Labels.BareCommandRoundTrip | peers/peer.go:283-345 | the same without a size, also excluding a leading digit or `%` |
| Labels.CreatedCommand | peers/peer.go:283-345 | every label that starts a command is the comma-free command joined, behind a parsed size if it has one |
| Labels.CreateIff | peers/peer.go:283-345 | a label starts exactly this command at this size if and only if it is the joined command, bare or behind a text that parses to the size, and no guard of the parser catches its first word |
| ScreenDump.DumpVT | peers/pane.go:308-337 | the two loops with the colours printed last return the dump that the round trip is about |
| ScreenDump.ShowColorChange | peers/pane.go:339-358 | a terminal reads the colour change back as exactly both colours, and prints nothing |
| ScreenDump.DumpRestores | peers/pane.go:317-331 | from any cell on, the rest of the dump leaves the cells before it alone, shows every later cell if the pen was right, and sets the cursor |
| ScreenDump.RoundTripIff | peers/pane.go:308-337 | for every printable screen, and every starting pen and line of a terminal whose cursor starts a line: the cursor comes back, and all cells do exactly if the pen shows colour 0 on 0 or the first cell has other colours |
| ScreenDump.ShownColorIff | peers/pane.go:339-358 | a colour can be read back exactly if it is the default of its plane or below 2^24 |
| ScreenDump.ScreenRecoveredIff | peers/pane.go:308-358 | from the start of any line, the whole screen can be read off the terminal exactly if every colour is such a colour and the pen condition holds |
| ScreenDump.WrongColumn | peers/pane.go:308-337 | from column x inside a line the first cell shows the character of column cols - x, and the screen is lost if that is another one |
| ScreenDump.TerminalFitsIff | peers/pane.go:308-337 | every printable screen of default and true colours is shown right exactly by the terminals whose cursor starts a line and whose pen shows colour 0 on 0 |
| Fingerprints.TokensFile.ReadAuthorizedTokens | auth.go:33-62 | the loop returns the tokens of the lines in order: exactly the fingerprints that are a line of the file or stand before a space in one, not empty and not led by `#` |
| Fingerprints.TokensFile.IsAuthorized | auth.go:65-78 | true exactly if some given token is a line of the file, or stands before a space in one, and is not empty, not led by `#` and without a space |
| Fingerprints.TokensFile.AddClients | clients.go:29-41 | the text grows by one line per argument |
| Fingerprints.TokensFile.RemoveClients | clients.go:42-84 | the text becomes its lines without those equal to an argument |
| Fingerprints.AddedLinesIff | clients.go:35-38 | for any arguments: what is added comes in as lines of its own exactly if there are none or the text ends in a newline; arguments without a newline or a trailing carriage return are then read back as these lines |
| Fingerprints.AddAppendsTokens | clients.go:35-38 | if the text ends in a newline, the tokens grow by exactly those of the added lines, for any arguments |
| Fingerprints.TokensIff | auth.go:41-56 | the tokens of a text are exactly the non-empty, space-free fingerprints not led by `#` that are one of its lines or stand before a space in one |
| Fingerprints.AddAuthorizes | clients.go:29-41 | adding to a file that ends in a newline authorizes every argument that is such a fingerprint, has no newline and no trailing carriage return |
| Fingerprints.AddKeeps | clients.go:29-41 | and keeps every fingerprint authorized before |
| Fingerprints.TokensAreClean | auth.go:41-56 | every token is non-empty, has no space and no leading `#` |
| Fingerprints.AddRemoveIff | clients.go:29-84 | adding and then removing arguments without a newline or a trailing carriage return restores the text exactly if it ended in a newline, had no CRLF and none of them was a line before |
| Fingerprints.AddRemoveAnyIff | clients.go:29-84 | for any arguments, on a text that ends in a newline and has no CRLF: it is restored exactly if no line was an argument and every line the arguments are read back as is one |
| Fingerprints.RevokesExactlyIff | clients.go:57-70 | on a file without a CR CR LF line, removing space-free arguments takes away exactly their authorization exactly if no line is an argument followed by a space |

## Left out

- Buffers.Buffer.GetSinceMarker: requires that the loop ends, because the source runs for ever otherwise; Ring.ReplayEndsIff shows that this precondition is exact.
- Agents.Agent.ReadReplay: requires that the loop ends; the other case is the step ReplayHangs, after which the callback keeps the buffer's lock for ever. How much a hung replay allocates is not modelled.
- Fingerprints.AddRemoveIff: arguments with a newline or a trailing carriage return are in AddRemoveAnyIff only, so not on a text without a final newline or with CRLF.
- EndToEnd.ClientSeesTty: the pipeline and the agent meet in the sequence of chunks that the sender puts into the buffer; their steps are not interleaved in one system.
- StepSystem.DoDeliverBlocks: a sender that waits for a stuck buffer may serve the channels more than once in the model, where a real one serves them once and then waits.
- Agents.Agent.SendChunk: taken as one step with the channel states fixed; a channel that opens or closes between the snapshot and the send is not modelled.
- Agents.Agent.Kill: taken as one step; the source forgets the clients before it takes the pane's lock, so a reconnect could come between.
- MarkRestore.KillIsFinal: relies on that atomic Kill and on Run being called once per pane.
- Labels.WinsizeRoundTrip: of the blanks that the scanner of numbers skips, only the ASCII ones are modelled.
- Fingerprints.RevokesExactlyIff: assumes that no line of the file still ends in a carriage return after the reader has dropped one, as a CR CR LF line does.
- Pane records and buffers inside the agent are values in its tables, not shared pointers, so aliasing between them is not captured; Buffers has the object itself.
- The screen dump that Restore sends without a marker is a step that sends some text; ScreenDump says what the text is.
- The vt10x emulator, its wide characters and attributes, and UTF-8: the terminal shows one character per cell.
- WebRTC, pty and process handling, HTTP and sockets, JSON, TOML, base64, logging and the command line.
- Parent panes, resize, payloads, clipboard and input to the tty: they would only add easy members.
- Time: the delays and the ack timeout are steps that may happen at any moment.
- Scanner line-length limits and file-system errors: lines fit, reads and writes succeed.
