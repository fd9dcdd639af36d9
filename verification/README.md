# WebWormhole, modelled and proved in Dafny

WebWormhole connects two browsers or command-line programs: a signalling server lets two clients meet at a numbered
slot, a code of a few words carries slot and password, a password-authenticated handshake seals the WebRTC
descriptions, and then files, texts or whole tunnelled connections go over a data channel. This project models the five
parts of it that hold most of its state and proves what they promise for every input, run or interleaving.

**Tunnel multiplexer** (`Protocol`, `Tunnel*`). Two sessions share one record pipe and carry any number of byte streams.
`Tunnel` has one session as a state and its atomic steps: what the goroutines of Dial, Close, Read, Write, Accept, the
read loop, the two-phase write loop and the closing sweep do between two points where they can block or be seen. A run
is a list of such steps of two sessions and of a break of the transport. `TunnelEndpoint`, `TunnelWire`, `TunnelFifo` and
`TunnelPair` hold the invariants, over the shared frame of `TunnelFrames`; `TunnelTheorems`, `TunnelControl` and
`TunnelListener` the results. `TunnelSession` has the objects of the source, updated in place, each method performing a
step of `Tunnel`. Two assumptions are explicit: records arrive unchanged and in order until the transport breaks, and no
connection is made under an id in use (`NoneCollided`). With one dialler that never happens; with two, `TunnelCollision`
says exactly when it does. `TunnelLateWrite` says exactly when Close lets data follow its CLOSE, and `TunnelLocalClose`
shows by a run what happens when it overtakes a delivery.

**Code words** (`Varint`, `Words`, `Codes`, `CodeTheorems`). The four encodings, their loops proved against what a
sequence of words stands for, tokenising with its inverse, LEB128 with 64-bit overflow (section 7.6 of DWARF 5), and the
decoder that tries all four. The two word lists are parameters: 512 different non-empty words of letters a to z each.

**Rendezvous** (`Rendezvous`, `RendezvousPairs`, `RendezvousSlots`, `RendezvousServer`). Any number of clients book, join,
time out and hand over connections over a slot's unbuffered channel, with slot numbers reused at once.

**Files** (`Files`, `FilesPage`, `SendQueue`, `ServiceWorker`, `ServiceWorkerHandlers`). Chunking, the receiver's
alternation of headers and data, the send queue under interleaved calls, and the meeting of posts and GET in the service
worker.

**Handshake** (`Handshake`, `HandshakeSound`, `HandshakeHonest`, `HandshakeState`, `HandshakeLocked`, `HandshakeWormhole`).
Two players as asynchronous state machines over an order-preserving relay, with the microtask queue first in, first out.
PAKE and sealing are symbolic: the two derive one key exactly if the passwords agree, and only the key that sealed a
message opens it.

Where code and comments disagree the model follows the code: the server comments on 21-bit slot numbers as four bytes of
varint, but they take three (`RendezvousServer.SmallSlotsFirst`); an "invalid" code of slot words only decodes to the
slot and an empty, not a missing, password (`CodeTheorems.LastWordLost` with a one-byte password).

Properties that the code does not have are shown by a concrete run or input, next to the exact condition where there is
one: empty files and files of the type reserved for texts (`Files.StreamRoundTrip`), negative slots and words shared by
the two lists (`CodeTheorems.DecodeMagic`, `DecodePgp`, `SharedWordsClash`), varints longer than needed
(`CodeTheorems.CanonicalForm`), a booker that gives up and evicts another booking (`RendezvousSlots.MapIsCleanExactly`,
`LateTimeoutEvicts`), a transfer that throws, hangs or is cut off and blocks the queue for good
(`SendQueue.QueueSticksExactly`, `FailureSticks`), a state field left behind after the handshake
(`HandshakeState.StateFieldLeftBehind`), two diallers (`TunnelCollision.CollidesExactly`, `TwoDiallersCollide`), data
after CLOSE (`TunnelLateWrite.LateExactly`), a gap in what is read during a local Close
(`TunnelLocalClose.LocalCloseLeavesGap`).

Check everything with `dafny verify dfyconfig.toml` (Dafny 4.11).

## Model

| member | source | states |
|---|---|---|
| Protocol.PutUint | wormhole/tunnel/protocol.go:62-63 | the in-place store writes the big-endian bytes of the number and leaves the rest of the buffer |
| Protocol.EncodeMsg | wormhole/tunnel/protocol.go:59-66 | the buffer filled in place is the frame of the message |
| Protocol.Decode | wormhole/tunnel/protocol.go:34-57 | accepts exactly the records that start with the frame of a message a record can carry, with the error of the first check that fails |
| Protocol.RoundTrip | wormhole/tunnel/protocol.go:34-66 | decoding a frame, whatever follows it, gives type and id back and the payload cut to its length modulo 2^32, so exactly below that |
| Protocol.ParseIsPrefix | wormhole/tunnel/protocol.go:34-66 | what decodes starts with the frame of its result, and bytes appended to it change nothing |
| Protocol.ParseExact | wormhole/tunnel/protocol.go:34-66 | a record decodes if and only if it starts with the frame of some carriable message |
| TunnelTheorems.MultiplexerIsFifo | wormhole/tunnel/session.go:117-328 | whoever dials, in every state reached before a collision of ids, both directions and all ids at once: bytes written at one end = read ++ buffered ++ queued ++ held by the read loop ++ on the wire ++ in the write loop ++ in its queue, until the reading end closes |
| TunnelTheorems.ReadIsPrefix | wormhole/tunnel/session.go:265-284 | what Read has returned is a prefix of what the peer's Write took, also after a remote close |
| TunnelTheorems.EveryEventIsFifo | wormhole/tunnel/session.go:117-328 | refinement: every event of the pair is, for each direction of each connection, a put, a get of the next bytes, or nothing |
| TunnelTheorems.RunsKeep | wormhole/tunnel/session.go:59-328 | every run of two sessions without a collision of ids keeps the pair's invariants |
| TunnelTheorems.OneDiallerNeverCollides | wormhole/tunnel/session.go:66-148 | with one dialler no run has a collision |
| TunnelEndpoint.EndpointKeeps | wormhole/tunnel/session.go:59-351 | every step of a session keeps its queues, waiting calls, ids and record counts consistent |
| TunnelTheorems.AllAdmissible | wormhole/tunnel/session.go:66-148 | with one dialler every Dial and every OPEN that is read makes a connection under an id that was not in use |
| TunnelPair.PairKeeps | wormhole/tunnel/session.go:59-351 | every event but a collision keeps what the two ends know of each other consistent, so an OPEN arrives once per id and before its data |
| TunnelPair.KnowsKeeps | wormhole/tunnel/session.go:59-174 | an end knows exactly the ids it has dialled and those whose OPEN it has read, and no id is both |
| TunnelPair.BytesKeep | wormhole/tunnel/session.go:186-328 | every event but a collision conserves the bytes of every connection in both directions |
| TunnelFifo.PipeStep | wormhole/tunnel/session.go:186-243 | no step of an end loses, repeats or reorders a connection's bytes on their way from Write to the wire |
| TunnelFifo.ReaderRecv | wormhole/tunnel/session.go:117-174 | the read loop passes on the bytes it has taken from the wire, each once and in order |
| TunnelFifo.UserRecv | wormhole/tunnel/session.go:265-284 | Read moves bytes through the buffer without loss or reordering |
| TunnelWire.SentKeeps | wormhole/tunnel/session.go:194-243 | the records written and still queued for an id never leave its automaton's states, although control overtakes data |
| TunnelWire.GrammarOfPhase | wormhole/tunnel/session.go:194-243 | the automaton's good states are exactly prefixes of Open Data* Close and Data* Close |
| TunnelControl.WireGrammar | wormhole/tunnel/session.go:59-78 | if no Write is pending when Close is called, an end's records for an id are a prefix of Open Data* Close (an id it dialled) or Data* Close (any other) |
| TunnelLateWrite.LateExactly | wormhole/tunnel/session.go:286-304 | when Close is called, data can end up behind the CLOSE if and only if a Write has passed the closed check but not queued its record, or the record waits in the data queue |
| TunnelLateWrite.LateWriteFollowsClose | wormhole/tunnel/session.go:286-304 | it does happen, with one dialler and without failure or stop |
| TunnelControl.NoCloseEcho | wormhole/tunnel/session.go:143-165 | each end emits at most one CLOSE per id, by whatever cause, at most one OPEN for an id it has dialled and none for another |
| TunnelControl.ClosedIsGone | wormhole/tunnel/session.go:296-304 | a connection whose once-body has completed is not in the map |
| TunnelControl.GoneForGood | wormhole/tunnel/session.go:296-328 | and never comes back to it, nor reopens |
| TunnelControl.ThreeControlsPerDial | wormhole/tunnel/session.go:59-78 | both ends together write at most an OPEN per Dial and two CLOSEs per id |
| TunnelControl.BoundedOvertaking | wormhole/tunnel/session.go:224-243 | while control requests ahead of it are picked, a control request moves up one by one and data is picked at most once more often |
| TunnelControl.QueuesBounded | wormhole/tunnel/session.go:40-51 | the buffered channels never exceed 64 control, 256 data and 64 accept entries |
| TunnelControl.AtMost64DataRecords | wormhole/tunnel/session.go:224-243 | a control request waits for at most 64 data records |
| TunnelListener.ListenerAccounting | wormhole/tunnel/session.go:143-165 | at either end: accepted ++ queued = the opens not refused, in order of arrival; each open is at exactly one place; a refused one is unregistered |
| TunnelLocalClose.LocalCloseLeavesGap | wormhole/tunnel/session.go:265-320 | why the reading end must not be closing: a run in which Read returns a second chunk after the first was dropped |
| TunnelFrames.StepFrame | wormhole/tunnel/session.go:59-351 | what any one step may do to any one connection: its holder, its once and its bytes change only by the steps named |
| TunnelCollision.CollidesExactly | wormhole/tunnel/session.go:66-68 | whoever dials, before the first collision: the next OPEN takes an id of its reader's, open or closed since, if and only if it is at most the reader's own count of dials, and a Dial if and only if the OPEN of its id was read |
| TunnelCollision.TwoDiallersCollide | wormhole/tunnel/session.go:66-68 | with two diallers an OPEN replaces a connection that the receiver has dialled under the same id |
| TunnelSession.Session.Dial | wormhole/tunnel/session.go:59-68 | Dial takes the next id and registers a new connection, or nothing happens once the session has stopped |
| TunnelSession.Session.DialStart | wormhole/tunnel/session.go:66-68 | the same behind the check of stopCh, which a stop may follow at once |
| TunnelSession.Session.DialEnqueue | wormhole/tunnel/session.go:194-200 | Dial's OPEN joins the control queue, or the call blocks exactly when that is full |
| TunnelSession.Session.DialReturn | wormhole/tunnel/session.go:77 | the connection goes to the caller |
| TunnelSession.Session.DialAbort | wormhole/tunnel/session.go:72-75 | a Dial that failed or was stopped takes its id out of the map |
| TunnelSession.Session.WritePhase1 | wormhole/tunnel/session.go:227-233 | the first select: control or stop, neither only if neither is ready |
| TunnelSession.Session.WritePhase2 | wormhole/tunnel/session.go:234-241 | the second select: any ready case, blocking exactly if none is |
| TunnelSession.Session.WriteReturns | wormhole/tunnel/session.go:231 | the result of WriteRecord reaches the one call that waits for it |
| TunnelSession.Session.HandleRecord | wormhole/tunnel/session.go:120-139 | one record: dispatched by its kind, or skipped if it does not decode |
| TunnelSession.Session.Handle | wormhole/tunnel/session.go:143-184 | the handlers up to where they can block, ignoring unknown ids |
| TunnelSession.Session.OfferOrRefuse | wormhole/tunnel/session.go:154-164 | handleOpen's select never blocks: offered, or refused when full or stopped |
| TunnelSession.Session.RefuseEnqueue | wormhole/tunnel/session.go:158-162 | the CLOSE of a refused open joins the control queue or blocks |
| TunnelSession.Session.RefuseEnd | wormhole/tunnel/session.go:159-163 | then its id leaves the map |
| TunnelSession.Session.DeliverData | wormhole/tunnel/session.go:313-320 | a chunk is queued, or dropped only after a close, and blocks only when neither is possible |
| TunnelSession.Session.ReadFails | wormhole/tunnel/session.go:121-126 | a failed ReadRecord closes the session, its connections too if that has not begun, and ends the loop |
| TunnelSession.Session.CloseBegin | wormhole/tunnel/session.go:297-298 | only the first caller enters the once-body |
| TunnelSession.Session.CloseUnlist | wormhole/tunnel/session.go:300 | the connection leaves the map; only Close goes on to send CLOSE |
| TunnelSession.Session.CloseEnqueue | wormhole/tunnel/session.go:301 | the CLOSE joins the control queue or blocks |
| TunnelSession.Session.RemoteClose | wormhole/tunnel/session.go:322-328 | closed and out of the map, without a CLOSE, unless the once was entered before |
| TunnelSession.Session.CloseAll | wormhole/tunnel/session.go:109-115 | every registered connection whose once is untouched ends closed and unregistered, the others are as they were |
| TunnelSession.Session.CloseOnce | wormhole/tunnel/session.go:102-107 | the first close stops the session and sweeps it, later ones do nothing |
| TunnelSession.RemoteCloseIsSteps | wormhole/tunnel/session.go:322-328 | that is the effect of the once-body's three steps in a row |
| TunnelSession.Session.Accept | wormhole/tunnel/session.go:342-351 | the oldest queued connection goes to the user, or net.ErrClosed after a stop or the listener's Close, as the select chooses; blocks exactly if neither is ready |
| TunnelSession.Session.CloseListener | wormhole/tunnel/session.go:353-356 | closes the listener's channel and nothing else |
| TunnelSession.Session.ReadRound | wormhole/tunnel/session.go:269-283 | a round of Read: buffered bytes, else the next chunk or EOF as the select chooses, else it blocks |
| TunnelSession.Session.WriteBegin | wormhole/tunnel/session.go:286-290 | Write goes on exactly if the closed flag is not set |
| TunnelSession.Session.WriteEnqueue | wormhole/tunnel/session.go:209-215 | its record joins the data queue or blocks |
| TunnelSession.Session.WriteReturn | wormhole/tunnel/session.go:216-221 | Write returns once its record's fate is known or the session stopped |
| TunnelSession.Session.Stop | wormhole/tunnel/session.go:104 | closing stopCh, the first act of close |
| Varint.RoundTrip | wordlist/wordlist.go:112-114 | reading a written varint, with any bytes behind it, gives the 64-bit number and the length written, at most ten |
| Varint.AcceptedFits | wordlist/wordlist.go:145-149 | accepted varints have at most ten bytes and denote less than 2^64 |
| Varint.MinimalIsLeb | wordlist/wordlist.go:145-149 | a varint is the encoding of its value if and only if it has no needless last byte |
| Varint.PutUvarint | wordlist/wordlist.go:112-114 | the in-place loop writes the LEB128 bytes and nothing else of the buffer |
| Varint.GetUvarint | wordlist/wordlist.go:145 | the 64-bit loop with its overflow checks computes the arithmetic value of what it accepts |
| Words.TokensOfSpell | wordlist/wordlist.go:127-131 | any spelling of words with dashes, pluses and white space between and around them splits into those words |
| Words.SpellOfTokens | wordlist/wordlist.go:127-131 | and every text is such a spelling of the words found in it |
| Words.TokensOfJoin | wordlist/wordlist.go:123 | splitting undoes joining |
| Words.IndexOf | wordlist/wordlist.go:205-212 | the one index of the word up to case, or -1 exactly if the list does not have it |
| Words.SampleListOk | wordlist/wordlist.go:226-486 | the properties assumed of both word lists can be had together |
| Codes.VarintEncode | wordlist/wordlist.go:108-124 | the word-filling loops give the words of the varint and the password at their positions |
| Codes.VarintDecode | wordlist/wordlist.go:126-150 | returns what the words stand for, and nothing exactly if some word or parity or the varint is wrong |
| Codes.MagicEncode | wordlist/wordlist.go:160-169 | the loop appends the password's words to the decimal slot |
| Codes.MagicDecode | wordlist/wordlist.go:171-198 | reads a decimal slot and words of the right parities, nothing else |
| Codes.OctalEncode | wordlist/wordlist.go:61-71 | the loop appends three-digit groups with the parity as ninth bit |
| Codes.OctalDecode | wordlist/wordlist.go:73-100 | reads the bytes whose ninth bits alternate, nothing else |
| Codes.Encode | wordlist/wordlist.go:20-22 | the default encoding is the first |
| Codes.Decode | wordlist/wordlist.go:26-34 | the loop returns the reading of the first encoding that has one |
| CodeTheorems.RespellingIs | wordlist/wordlist.go:127-131 | retyping a code with other case and separators is exactly: any casing of its words with any gaps that keep them apart |
| CodeTheorems.VarintRoundTrip | wordlist/wordlist.go:108-150 | every 64-bit slot and non-empty password come back, in any case and with any separators |
| CodeTheorems.MagicRoundTrip | wordlist/wordlist.go:160-198 | the decimal encoding comes back if and only if the slot is not negative |
| CodeTheorems.OctalRoundTrip | wordlist/wordlist.go:61-100 | so does the octal one |
| CodeTheorems.DecodeDefault | wordlist/wordlist.go:20-34 | top-level Decode inverts top-level Encode, in any case and with any separators |
| CodeTheorems.DecodeMagic | wordlist/wordlist.go:26-34 | it inverts the decimal encoding over enWords if and only if the slot is not negative |
| CodeTheorems.DecodeOctal | wordlist/wordlist.go:26-34 | and the octal encoding if and only if the slot is not negative |
| CodeTheorems.DecodePgp | wordlist/wordlist.go:11-34 | and the pgpWords encoding if and only if the slot is not negative and the enWords lookup fails at some word or gives the same words throughout |
| CodeTheorems.SharedWordsClash | wordlist/wordlist.go:11-34 | a word that both lists have for different bytes makes Decode return the password of the other byte |
| CodeTheorems.AloneClashes | wordlist/wordlist.go:239-502 | as "alone" does, at index 18 of one list and 22 of the other: password [11] reads as [9] |
| CodeTheorems.ClashingListsExist | wordlist/wordlist.go:11-16 | two lists that share a word so exist |
| CodeTheorems.WrongParity | wordlist/wordlist.go:133-143 | one enWords word at a position of the wrong parity makes every encoding refuse the code |
| CodeTheorems.SlipsAreNoticed | wordlist/wordlist.go:133-143 | exchanging neighbours, doubling a word or dropping any but the last makes Decode find nothing, with the fallbacks |
| CodeTheorems.LastWordLost | wordlist/wordlist.go:126-150 | dropping the last word goes unnoticed and shortens the password |
| CodeTheorems.CanonicalForm | wordlist/wordlist.go:108-150 | re-encoding a decoded code gives its lower-case, dash-joined words if and only if the varint is minimal; the varint is at most ten bytes and 64 bits |
| RendezvousPairs.HandoverIsMutual | cmd/ww/server.go:196-285 | in every run: one booker and one joiner at most per channel, partners are mutual or about to be, and no connection is the partner of two |
| RendezvousPairs.MailIsThePartners | cmd/ww/server.go:287-328 | what was written to a connection is exactly what its one partner's loop passed on, in order |
| RendezvousPairs.PartnerForever | cmd/ww/server.go:250-281 | a partner once set is never replaced |
| RendezvousPairs.SlotsAreLive | cmd/ww/server.go:255-266 | every slot in the map belongs to a booker that still waits for a joiner |
| RendezvousPairs.TimedOutJoinerBlocks | cmd/ww/server.go:278-283 | a joiner that timed out stays at its send for the rest of every run: it never gets a partner and nobody on its channel is ever handed over |
| RendezvousSlots.EvictsExactly | cmd/ww/server.go:214-243 | while every waiting booker can be joined, a step ends that if and only if a booker gives up and its key stands for a channel that is not its own |
| RendezvousSlots.MapIsCleanExactly | cmd/ww/server.go:196-285 | in every run all waiting bookers can be joined all the time, if and only if no booker gives up so |
| RendezvousSlots.LateTimeoutEvicts | cmd/ww/server.go:235-243 | a run in which a timeout deletes a key that another client has booked since |
| RendezvousPairs.EventKeeps | cmd/ww/server.go:196-328 | every step of every client keeps the pairing invariants |
| RendezvousServer.SmallSlotsFirst | cmd/ww/server.go:109-138 | numbers of the first 64 tries take one varint byte, of the next 1024 two, of the rest three |
| RendezvousServer.Server.FreeSlot | cmd/ww/server.go:109-140 | the first number drawn that is free, failing only if all of them were taken |
| RendezvousServer.Server.Book | cmd/ww/server.go:197-211 | a free number gets a fresh channel, or nothing changes |
| RendezvousServer.Server.Join | cmd/ww/server.go:255-266 | joining takes the slot and its channel out of the map, or nothing changes |
| RendezvousServer.Server.Greeted | cmd/ww/server.go:212-234 | after the first message a booker offers itself and a joiner waits |
| RendezvousServer.Server.GreetFails | cmd/ww/server.go:214-230 | a failed first message ends the goroutine; a booker deletes its key |
| RendezvousServer.Server.TimeOut | cmd/ww/server.go:235-243 | a booker gives up and deletes its key, a joiner goes on to its send; the invariants hold |
| RendezvousServer.Server.Hand | cmd/ww/server.go:246-283 | an unbuffered send meets a receive, which sets rconn |
| RendezvousServer.Server.Forward | cmd/ww/server.go:287-328 | a message goes to the partner, or ends the loop if there is none yet or the write to it fails |
| Files.PiecesWhole | web/main.ts:90-99 | the chunks of a buffer joined are the buffer |
| Files.DataCompletes | web/main.ts:288-304 | non-empty data messages complete a download with their last byte and not before |
| Files.StreamRoundTrip | web/main.ts:447-478 | all texts and files arrive unchanged and in order with nothing left being received, if and only if no file is empty or of the type reserved for texts |
| Files.StuckOnEmpty | web/main.ts:447-454 | after an empty file's header every further message throws and nothing more arrives |
| Files.ReadsDoNotMatter | web/main.ts:128-149 | how the stream splits the data makes no difference to the receiver |
| FilesPage.DataChannelWriter.Write | web/main.ts:90-99 | the loop sends the buffer in 32 KiB pieces |
| FilesPage.UploadTask.Send | web/main.ts:128-177 | the header and then the chunks of the stream's reads or of the blob's slices; offset ends at the size sent |
| FilesPage.SlicesCover | web/main.ts:164-176 | the slices are a beginning of the blob of at least the header's size, and the blob if it has that size |
| FilesPage.ArrayBufferDownload.Receive | web/main.ts:288-304 | data is appended in place, or refused whole if it does not fit |
| FilesPage.ServiceWorkerDownload.Receive | web/main.ts:213-239 | data is posted with its offset, the end exactly with the last byte, an error instead of too much |
| FilesPage.Page.OnMessage | web/main.ts:447-478 | the message handler with either kind of download does what the receiver of Files does and makes its posts |
| FilesPage.Page.Disconnected | web/main.ts:643-646 | a download in progress is cancelled, which the service worker is told, and forgotten |
| FilesPage.FileIsPosted | web/main.ts:190-239 | a file's messages make a download post metadata, the chunks with their offsets and one end, nothing else |
| FilesPage.FileIsSaved | web/sw.ts:50-129 | from the sender's file to the browser's response: in every interleaving the response is the file |
| SendQueue.SingleDrainer | web/main.ts:429-445 | under any interleaving of calls, transfers, failures, closing channels and disconnections at most one drain loop runs, and finished ++ in flight ++ queued are, in call order, the uploads that disconnected() has not dropped from the queue; kept and dropped together are the uploads of all calls |
| SendQueue.QueueDelivers | web/main.ts:429-478 | in every run, over any number of channels and with transfers that outlive disconnected(), after which nothing is in flight: each channel was given whole uploads, none interleaved, all channels together the ones kept, in call order, and who gets all that a channel was given has all of its uploads if and only if none is a file that cannot arrive |
| SendQueue.BreaksExactly | web/main.ts:85-171 | a step makes the queue stuck if and only if a transfer throws, awaits what never comes or loses its channel before its last message, or is to begin without a channel that takes messages |
| SendQueue.QueueSticksExactly | web/main.ts:429-445 | a run ends with the queue stuck if and only if one of these happened in it |
| SendQueue.StuckForever | web/main.ts:437-443 | and then nothing is ever sent again on any channel, old or new |
| SendQueue.StuckMeansForGood | web/main.ts:437-443 | stuck is exactly that no continuation finishes the upload in flight |
| SendQueue.FailureSticks | web/main.ts:96-103 | after a transfer that throws, hangs or is cut off, a run in which an upload on a new connection is queued for good |
| SendQueue.Sender.Send | web/main.ts:429-442 | send() up to its first await |
| SendQueue.Sender.NextUpload | web/main.ts:441-442 | the loop's condition and its body up to the await, the header sent at once |
| SendQueue.Sender.TransferEnds | web/main.ts:442-443 | from the await to the next one |
| SendQueue.Sender.OnOpen | web/main.ts:528-533 | the opened channel drains what is waiting |
| SendQueue.Sender.Disconnected | web/main.ts:597-600 | drops the waiting uploads and the global channel, not the one in flight nor its own channel |
| ServiceWorker.StreamGetsData | web/sw.ts:36-129 | in every interleaving with the GET the stream has the data so far in order, is closed exactly by the end, and its entry is deleted precisely when end and GET are both handled |
| ServiceWorker.AllDone | web/sw.ts:76-129 | in the end the response is the whole data and no entry is left |
| ServiceWorker.ForgottenForGood | web/sw.ts:62-71 | a GET whose promise was deleted is never answered |
| ServiceWorkerHandlers.Worker.OnMetadata | web/sw.ts:53-61 | a new stream for this id, whatever waited for it, and no other id changed; throws exactly if there is a stream |
| ServiceWorkerHandlers.Worker.OnData | web/sw.ts:62-75 | data at the right offset is enqueued, otherwise the entry is deleted, a promise too; throws exactly without an entry or at a closed stream |
| ServiceWorkerHandlers.Worker.OnEnd | web/sw.ts:76-89 | the stream is closed and the entry goes if the GET was first; throws exactly if there is no open stream |
| ServiceWorkerHandlers.Worker.StreamDownload | web/sw.ts:105-115 | the GET is answered, or waits for the metadata |
| ServiceWorkerHandlers.Worker.ResumeDownload | web/sw.ts:107-115 | the awaited stream is answered; the entry goes if the end was first |
| HandshakeHonest.NothingUnexpected | web/ww.ts:91-235 | with one password no player ever receives a message its state is not there for |
| HandshakeHonest.ResolvedTogether | web/ww.ts:158-206 | nobody fails; if player 1 resolves, player 2 has, with the same fingerprint, each holding the other's description |
| HandshakeLocked.WrongPasswordNeverResolves | web/ww.ts:158-206 | with two passwords nobody ever resolves or takes over a description, and a player has rejected exactly if it has received a third message |
| HandshakeHonest.CandidatesInOrder | web/ww.ts:208-231 | candidates that come during the handshake are added exactly once, in order and only after the answer is sent; so are all others |
| HandshakeState.StateFieldLeftBehind | web/ww.ts:176-231 | after the answer the state field is left, for good, at stateWaitForLocalAnswer if and only if a candidate had come before the answer was created, else at stateWaitForCandidates |
| HandshakeState.RunMicroKeepsFinal | web/ww.ts:228-231 | running a queued microtask does not change the state that the queue will leave |
| HandshakeState.CandidateBeforeAnswer | web/ww.ts:176-183 | a run in which a candidate does come before the answer |
| Handshake.SettlesOnce | web/ww.ts:127-131 | the result promise settles once, in every run of any two players |
| HandshakeSound.ResolvesWithOwnKey | web/ww.ts:122-206 | whatever the passwords and messages: who resolves has the fingerprint of its own key and both descriptions, and nothing happens before there is a key |
| HandshakeHonest.EventKeeps | web/ww.ts:91-362 | every delivery, API result, microtask and local candidate keeps the handshake's invariant |
| HandshakeWormhole.Wormhole.OnMessage | web/ww.ts:356-362 | feeding the state machine performs the step of the model for the state the object is in |
| HandshakeWormhole.Wormhole.StateWaitForPAKEA | web/ww.ts:122-141 | the key is set and the state for a local offer entered before the first await |
| HandshakeWormhole.Wormhole.OfferCreated | web/ww.ts:142-146 | the offer is sealed and sent, then set |
| HandshakeWormhole.Wormhole.StateWaitForRemoteOffer | web/ww.ts:158-176 | an offer is accepted; a message that does not open is answered, the socket closed and the result rejected |
| HandshakeWormhole.Wormhole.AnswerCreated | web/ww.ts:178-184 | the answer is sent and the result resolved, which wakes the deferred handlers before the state is assigned |
| HandshakeWormhole.Wormhole.StateWaitForRemoteAnswer | web/ww.ts:186-206 | an answer is taken over and resolves the result |
| HandshakeWormhole.Wormhole.ProcessCandidate | web/ww.ts:272-289 | a candidate is added; one that does not open closes the socket |
| HandshakeWormhole.Wormhole.StateWaitForLocalAnswer | web/ww.ts:220-231 | the handler waits for the end of the handshake |
| HandshakeWormhole.Wormhole.RunMicrotask | web/ww.ts:228-231 | a resumed handler adds its candidate and returns the state of that moment |
| HandshakeWormhole.Wormhole.OnIceCandidate | web/ww.ts:291-304 | local candidates are sealed and sent once there is a key |

## Left out

- Session.Close as a whole call, and its liveness: a connection registered while closeAll runs can survive it. In `Tunnel` each connection's closing by the sweep is steps of its own.
- TunnelSession.Session.CloseAll: does not wait for a once-body that another goroutine is in.
- TunnelSession.Session.CloseOnce: likewise.
- TunnelSession.Session.ReadFails: likewise.
- TunnelSession.Session.Stop: close's second act, the sweep, is CloseAll; both together are CloseOnce.
- TunnelSession.Session.DialStart: asks for an id that no OPEN has used; with one dialler that is always so (`TunnelTheorems.AllAdmissible`), with two `TunnelCollision.CollidesExactly` says when. The id counter's wrap at 2^64 is not modelled: it is enabled below that only.
- TunnelSession.Session.Dial: likewise.
- TunnelSession.Session.HandleRecord: asks that an OPEN's id is new, which without a collision it always is; see DialStart.
- TunnelSession.Session.Handle: likewise.
- TunnelSession holds a queued record as the message that Decode returns for it, and finds the objects that goroutines hold by id, which is unique until a collision; aliasing of two objects with one id is not in it.
- Listen, addresses and deadlines.
- Payloads of 2^32 bytes and more on the tunnel are truncated by their frame before they are written; the FIFO theorems speak of the truncated payload.
- Words.SampleListOk: the texts of the two lists themselves are not in the model, only what all proofs need of them.
- Match; strings that are not valid Unicode; folding of characters that no word contains.
- Calls into libraries: JSON and TextEncoder are a pair of functions that undo each other (`Files.CodecOk`), cpace, HKDF, secretbox and base64 the symbolic messages of `Handshake`.
- Errors of the writes and pings to a waiting client other than the first message, close codes, TURN credentials, metrics and the version check of the signalling server; one client's Hangup is one event.
- The random numbers of freeslot are its parameter; that later ones are not drawn once a slot is found is not observed.
- FilesPage.UploadTask.Send: asks, for the path without a stream, that the blob is not shorter than its header says; the blob loop would not end.
- Files.StreamRoundTrip: asks that a header's size is that of the data and that texts have none, as sendfile and sendtext make them.
- SendQueue.Sender.Disconnected: what disconnected() does about a download is FilesPage.Page.Disconnected.
- The data channel's buffer accounting: that it delays a send, for good if the channel closes, is one event of `SendQueue` that may come at any await. Messages that a closing channel has taken but not delivered; progress bars, the DOM and object URLs.
- ServiceWorkerHandlers.Worker.StreamDownload: one GET per download id; the page makes one.
- ServiceWorkerHandlers.Worker.OnMetadata: no second metadata while a GET is about to answer with a first stream deleted since; the page makes a new id for every download.
- streamUpload, and errors posted to the service worker, which only fail the response.
- WebSocket closing and its error codes in the handshake, panics on missing fields, and a state that is overwritten after a failure; setLocalDescription and player 1's setRemoteDescription take effect at once.
- The Go clients' own handshake (dial.go), pipes, file commands and port forwarding: plumbing around the same parts.
