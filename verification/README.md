# dssh: a verified model of the control stream, the output pipeline and the text formats

dssh carries SSH-style conversations over QUIC streams. This project models three parts of it
in Dafny and proves what they are for.

**The control stream.** Every conversation has one control stream for global requests, shared by
any number of tasks. A task takes a ticket and waits until the serving counter reaches it; its
guard, when dropped, serves the next ticket; a request that a handler drops is queued for a failure
reply, which some other writer sends; a poison flag ends everything.
`ControlStream` is this protocol as a transition system in which every atomic access is a step
of its own: the two loads in `acquire` are two steps, and so are removing a ticket from the queue,
waiting for it, writing each field, reading a header and taking the writer ticket for its reply, the
poison store and dropping the guard. A run is any list of actions from the empty state, so every
theorem in `ControlTheorems`, `ControlPoison` and `ControlWindows` is about any number of tasks, any
interleaving, any I/O error and any dropped handle. `ControlInvariant` says what all steps keep and
`ControlReader` what the reader's guard keeps in order; `ControlSteps`, `ControlTestSteps` and
`ControlWriteSteps` prove it, step by step. `Wakeup` takes `acquire` alone and also separates the
notification from the store before it; `WriterWakeup` does the same for the loop of `acquire_writer`
with the queue it drains, and `WriterHangs` says from which states that loop can hang. `Conversation`
and `Handles` are the same code as objects with fields and loops; `DrainAlone`, `WriterRefines` and
`HandleRefines` say that a task of the transition system, left alone, does exactly what those methods
do, errors included (`WriterRuns` has the runs). `ControlPeer` goes from a call at this end to what the
peer hears, by the message numbers of RFC 4254. Ghost records of the notifications made and of whether the
session was poisoned at each release of a guard let their contracts say what came first.

**The output pipeline.** `Wire` (integers of section 16 of RFC 9000, strings, booleans), `Utf8` (RFC 3629),
`Streams`
(sources that give any chunks, sinks that may fail part-way), `Channel` (the messages of sections
5.2 to 5.4 of RFC 4254, writer, reader, bounded payload reader), `Exit` (section 6.10 of RFC 4254),
`ServerRelay` (the select loops), `ClientRelay` (the event loop), and `EndToEnd`, which composes them.
The methods are imperative and are proved against functions of the bytes; the theorems are about
those functions.

**Text.** `Glob`, `SourceText` and `Tokenizer` (configuration files), `ForwardSpec` (the forwarding
grammar with ordered choice), `ForwardText` (the language it accepts), `TermModes` (section 8 of RFC 4254), with `Decimals` for numerals.

Granularity and assumptions:

- Poison safety on the writer (`NothingAfterBrokenMessage`, `AtMostOneWriterAfterPoison`) holds with the
  two loads of `acquire` as separate steps, because `acquire_writer` compares the serving counter before
  it reads the flag. On the reader it does not: in the run of `ReaderSlipsIn` a second ticket gets the
  guard after the store. `ReaderWindow` says exactly which tickets can still get in, and
  `NoReaderAfterPoison` is the theorem with both loads as one step.
- `drain_auto_failures` drops its guard before it poisons. Runs in which that path was taken are marked
  (`drainFailed`) and excluded where they have to be; `DrainErrorIsExposed` is a run in which a message
  follows a torn one, and `DrainWindow` says of every run exactly when one can.
- `acquire_writer` does not look at the queue again between enabling its notification and waiting.
  `HangsExactly` says from which states some run ends with a writer waiting for ever: those in which a
  request stands behind a handle, which may be dropped, or behind an abandoned reply that itself stands
  behind a request, in a sound session that nobody will poison. From all other states every run ends
  with every task done. `AHangingRun` and `AnotherHangingRun` are the two smallest instances.
- A response that is no response, or does not decode, fails its call without poisoning the session.
  `AnswersPaired` is about runs without one; in the run of `AnswersSlip` the next call is given a value
  that was not meant for it.
- A task is never cancelled while it waits for a ticket or drains the queue, no task panics, and the
  64-bit counters do not wrap. Dropping a request handle is modelled.
- Where a comment and the code differ the model follows the code. The glob comment speaks of
  characters, the matcher compares bytes: `?` stands for one byte of a multi-byte character. The comment
  on terminal modes says that errors of single settings are logged; they are discarded.
- Linux values are used for signal numbers, `EIO` and the positions of terminal flags.
- A stream that ends inside a field gives an end-of-file error; h3x, whose decoder of integers is
  used, is not part of this model.

## Model

| member | source | states |
|---|---|---|
| ControlWriteSteps.RunKept | src/conversation.rs:331-406 | after every run: tickets from serving to next are each owned once, guards are held by the served ticket, a retired ticket wrote its whole message or, if its write failed, whole fields of it and perhaps a torn one, and so far the served one has, even after an error; request pairs are ordered |
| ControlTheorems.MutualExclusion | src/conversation.rs:119-208 | at most one live guard per resource, and its ticket is the one served |
| ControlTheorems.TicketConservation | src/conversation.rs:119-208 | unpoisoned, a ticket lies between serving and next if and only if exactly one task, handle, guard or the queue is answerable for it |
| ControlTheorems.DrainNeverWaits | src/conversation.rs:358-384 | the queue lies between the counters, and a drainer that took a ticket from it finds that ticket served |
| ControlTheorems.WireInTicketOrder | src/conversation.rs:388-406 | the stream is what each retired ticket wrote, in ticket order, then what the served one has written: a whole message, or, where a write failed or is not finished, whole fields of that ticket's message and after an error perhaps one torn field |
| ControlTheorems.RepliesInArrivalOrder | src/conversation.rs:736-797 | the k-th reply on the stream is the one decided for the k-th request that arrived, whatever order handlers answer or drop in, up to the first failed write: message 81 with the payload of the response if it was accepted, message 82 if it was refused or dropped; the ticket for it is taken in a later step than the header is read |
| ControlPeer.HandlerIsHeard | src/conversation/global.rs:256-333 | whatever happens before and after, a handler that responds with a payload, refuses or drops its request is heard by the peer as just that, in the place of that request |
| ControlPeer.CallIsHeard | src/conversation.rs:595-726 | a request or notice that is sent whole is heard by the peer with its name and payload, and as wanting a reply or not, whatever else is sent before and after |
| ControlTheorems.DecisionsStand | src/conversation/global.rs:256-333 | no step changes or removes a decision once an accepted request has one |
| ControlTheorems.CallsInArrivalOrder | src/conversation.rs:757-790 | while the reader is in step, request k is the k-th one the peer sent, and at most one is read and not yet numbered |
| ControlReader.ReaderRun | src/conversation.rs:595-797 | after every run: nobody else holds a guard while a header is read without its ticket; in step, the answers read are those of the pairs whose read ticket is retired, each delivered to its request, with accept calls mixed in as they come |
| ControlTheorems.EveryCallAnswered | src/conversation/global.rs:256-333 | when all tickets are retired and no request waits for its ticket, there are as many replies as requests read |
| ControlTheorems.TicketPairsAgree | src/conversation.rs:346-352 | two outgoing requests are written and have their answers read in the same order |
| ControlTheorems.AnswersPaired | src/conversation.rs:595-676 | while the reader is in step, the k-th outgoing request is given the k-th answer the peer sends, whatever requests are accepted in between; with no failed write up to it, it is the k-th request the peer receives |
| AnswerSlips.AnswersSlip | src/conversation.rs:648-674 | that premise is needed: a run, unpoisoned and with nothing broken, in which the message for the first request is no response and the second request is given any value, the first answer for instance |
| AnswerSlips.StaysOutOfStep | src/conversation.rs:648-674 | ... and the reader is never in step again |
| ControlTheorems.AnswersOnlyInStep | src/conversation.rs:648-674 | against a peer that only answers, with no decode error, the reader stays in step |
| ControlPoison.PoisonRun | src/conversation.rs:340-344 | after every run: who is past the poison test, which tickets may be broken, and what the first store saw |
| ControlPoison.PoisonIsForever | src/conversation.rs:340-344 | poison and the record of its first store are never undone |
| ControlPeer.DrainErrorsAreMarked | src/conversation.rs:368-381 | the runs marked by `drainFailed` are just those in which a write failed while a queued failure was sent |
| ControlPoison.UnpoisonedIsWhole | src/conversation.rs:622-646 | without poison and without an error in a drain, every retired message is whole |
| ControlPoison.NothingAfterBrokenMessage | src/conversation.rs:622-646 | a failed write is on record only after the poison store, and no later ticket writes a byte |
| ControlPoison.AtMostOneWriterAfterPoison | src/conversation.rs:388-406 | after a poison store only the ticket then served may still write |
| ControlWindows.ReaderWindow | src/conversation.rs:165-174 | after the first poison store, whoever makes it, a reader ticket can still hold the guard in some continuation if and only if the owners of all tickets from the served one up to it had read the flag as false |
| ControlWindows.ReaderSlipsIn | src/conversation.rs:165-174 | a run in which a ticket other than the one served at the poison store gets the reader guard after it |
| ControlPoison.NoReaderAfterPoison | src/conversation.rs:156-175 | with both tests of acquire as one step, no reader ticket but the served one holds the guard after a poison store |
| ControlPoison.DrainErrorIsExposed | src/conversation.rs:368-381 | a run in which an error inside a drain lets a message follow a torn one |
| ControlWindows.DrainWindow | src/conversation.rs:368-381 | in every run, when a write inside a drain fails, a later ticket can write in some continuation if and only if the flag is clear and the next ticket is not owned by the drainer itself, by another whose drain failed, or by a request handle that was dropped or did not decode and is about to poison |
| ControlWindows.ServedCanWrite | src/conversation.rs:388-406 | unpoisoned and with nobody past the poison test, the served ticket or a later one can write in some continuation if and only if its owner can do more than poison the session |
| Wakeup.WakeupsAreNotLost | src/conversation.rs:156-179 | a parked waiter that is served or poisoned has been notified, or some task is between its store and its notify_waiters call |
| Wakeup.AnyNumberStarts | src/conversation.rs:148-150 | any number of tasks may begin, one for each ticket, with any number of others that will poison the session |
| Wakeup.StuckIsDone | src/conversation.rs:203-208 | a run that cannot go on has no waiter left |
| Wakeup.RunsEnd | src/conversation.rs:156-208 | every run is shorter than a measure of its first state, so every acquire returns |
| WriterWakeup.RunKept | src/conversation.rs:358-406 | from any such state, with drains, drops and answers mixed in: no ticket is owned twice or lost, a served or poisoned writer has been notified, and one that leaves the served ticket queued has been notified or has missed a notification |
| WriterWakeup.HowARunHangs | src/conversation.rs:388-406 | when no task can move and not all have ended, the session is sound, the served ticket is queued, and every task left is a parked writer behind it that missed a notification after it last loaded the counter to drain and before it enabled its own |
| WriterHangs.HangsExactly | src/conversation.rs:358-406 | from a state with every writer at the top of its loop, some run hangs if and only if the session is sound, nobody will poison it, and there are two unserved requests of which the earlier is a handle that may be dropped, or has a queued ticket between it and the later one |
| WriterHangs.AHangingRun | src/conversation.rs:390-405 | one writer behind one handle is such a state |
| WriterHangs.AnotherHangingRun | src/conversation.rs:359-363 | so are a writer, a reply queued behind it and another writer, though nothing is dropped any more: the counter was loaded before the first writer finished |
| WriterWakeup.RunsEnd | src/conversation.rs:358-406 | every run is shorter than a measure of its first state, drains and retries included |
| Conversation.OrderedAccess.TakeTicket | src/conversation.rs:148-150 | gives the next number and moves only that counter |
| Conversation.OrderedAccess.Acquire | src/conversation.rs:156-175 | one turn of the loop, nothing interfering: a guard if and only if unpoisoned and served; the poison error if and only if poisoned |
| Conversation.OrderedAccess.DropGuard | src/conversation.rs:203-208 | serves the next ticket and notifies the waiters |
| Conversation.ConversationShared.Poison | src/conversation.rs:340-344 | sets the flag, notifies the waiters of both streams once, and changes nothing else |
| Conversation.ConversationShared.AllocateRequestTicketPair | src/conversation.rs:346-352 | takes the next ticket of each queue |
| Conversation.ConversationShared.DrainAutoFailures | src/conversation.rs:358-384 | undisturbed: one failure for each ticket of the longest queued run from the served one, just those removed; the exact state after an I/O error, when the guard is dropped before the poison store, and in a poisoned session |
| Conversation.ConversationShared.AcquireWriter | src/conversation.rs:388-406 | one turn of the loop: drains, then the guard, a wait or the poison error, with the exact state and stream each time |
| Conversation.ConversationShared.WriteMessage | src/conversation.rs:618-646 | the whole message and the next ticket served, or poison before the guard is released and what was written until then |
| Conversation.ConversationShared.SendGlobalNotification | src/conversation.rs:679-726 | the queued failures, then the notice; the exact state, stream and result also when the session is poisoned, when a failure cannot be sent and when the notice cannot |
| Conversation.ConversationShared.SendGlobalRequest | src/conversation.rs:595-676 | the same for a request, with both tickets taken first; then a success for message 81 with its payload, a refusal for 82, the number of any other message, or a decode error, with the reader's guard released and the session never poisoned by it |
| Conversation.AnswerByNumber | src/conversation.rs:648-674 | the answer for every message number |
| Conversation.AnswerComesBack | src/conversation/global.rs:256-322 | what respond_success, respond_failure or a drop writes at one end is what the request at the other end returns |
| Conversation.DrainAlone | src/conversation.rs:358-384 | a task of the transition system, left alone, drains exactly what the method does |
| Tickets.RunLengthIsLongest | src/conversation.rs:359-365 | the run a drain sends is queued throughout and the ticket behind it is not |
| Tickets.RunLengthUnique | src/conversation.rs:359-365 | only one length is like that |
| Handles.IncomingGlobalRequest.DecodePayload | src/conversation/global.rs:180-208 | decoded: the guard is released and the writer ticket handed on; not decoded: poison, then the guard |
| Handles.IncomingGlobalRequest.Drop | src/conversation/global.rs:211-221 | poisons before it releases the guard, if the guard is still there |
| Handles.IncomingGlobalNotice.DecodePayload | src/conversation/global.rs:384-398 | the same without a writer ticket |
| Handles.IncomingGlobalNotice.Drop | src/conversation/global.rs:401-407 | poisons before it releases the guard, if the guard is still there |
| Handles.DecodedGlobalRequest.Respond | src/conversation/global.rs:256-322 | takes the ticket, so that nothing is queued whatever happens; the queued failures and then the reply, with the exact state, stream and result after an error too |
| Handles.DecodedGlobalRequest.Drop | src/conversation/global.rs:326-333 | queues the ticket if and only if it was not taken |
| Handles.AcceptGlobalRequest | src/conversation.rs:736-797 | the handle with its guard and, if a reply is wanted, a writer ticket; anything else poisons before the guard is released |
| Handles.HandleRefines | src/conversation/global.rs:180-333 | decoding or dropping any handle is, in the transition system, the run with exactly the outcome the handles' methods have, and touches nobody else |
| WriterRuns.WriterRefines | src/conversation.rs:358-406 | a writing agent left alone, be it a request, a notice or a reply, reaches the state, the stream and the fate of the sending methods: sent, not yet served, poisoned, and after an error in a failure or in any field of the message |
| WriterRuns.MessageAlone | src/conversation.rs:618-646 | the holder of a guard, left alone, writes its message field by field |
| WriterRuns.MessageFinished | src/conversation.rs:618-646 | ... and retires its ticket with just that message, and goes on to read the answer if it sent a request |
| Wire.VarintRoundTrip | src/codec.rs:224-251 | an integer below 2^62 is read back, and the reader stands behind it |
| Wire.VarintForms | src/codec.rs:244-246 | every integer on the stream, of 1, 2, 4 or 8 bytes and in its shortest form or not, is the number RFC 9000 says; fewer bytes are a short read |
| Wire.VarintWritten | src/codec.rs:227-230 | what is written is the shortest of these forms |
| Wire.StringReadBack | src/codec.rs:220-258 | what the peer reads of any string: itself if valid UTF-8 of at most 2^20 bytes, else which error |
| Utf8.TextReadBack | src/codec.rs:220-258 | the peer accepts a string if and only if it is the UTF-8 encoding of some Unicode scalar values and at most 2^20 bytes long |
| Utf8.ValidUtf8IsText | src/codec.rs:253 | the check of received bytes accepts just the encodings of RFC 3629 |
| Wire.BytesReadBack | src/codec.rs:262-298 | what the peer reads of any bytes: themselves, or that they are too long |
| Wire.BoolRoundTrip | src/codec.rs:302-328 | a boolean is the byte 0 or 1 and read back |
| Wire.OtherBytesAreNoBool | src/codec.rs:316-328 | every byte but 0 and 1 is refused, and reported |
| Wire.StringCut | src/codec.rs:239-258 | a cut stream gives the same string with less behind it, the same error, or a short read |
| Streams.ByteSource.ReadVarint | src/codec.rs:244-246 | in whatever chunks the bytes come, what the function says |
| Streams.ByteSource.ReadBytes | src/codec.rs:280-298 | in whatever chunks the bytes come, what the function says |
| Streams.ByteSource.ReadString | src/codec.rs:239-258 | in whatever chunks the bytes come, what the function says |
| Streams.ByteSource.ReadBool | src/codec.rs:316-328 | in whatever chunks the bytes come, what the function says |
| Channel.FrameReadBack | src/conversation/channel.rs:442-491 | a written message is read as its event, with the reader at its payload, if and only if its request type is valid |
| Channel.FrameBytes | src/conversation/channel.rs:522-702 | the bytes of every message, by the numbers of RFC 4254 |
| Channel.EventByNumber | src/conversation/channel.rs:442-491 | every message number has its event or is refused, replies and unknown ones included |
| Channel.WantReplyRefused | src/conversation/channel.rs:470-478 | a request that wants a reply is refused, with its type |
| Channel.FramesRoundTrip | src/conversation/channel.rs:522-702 | any list of data, extended data, notices, EOF and Close is read back as the same list |
| Channel.EventCut | src/conversation/channel.rs:442-491 | a cut stream gives the same event, the same error, or a short read |
| Channel.SshChannelWriter.Data | src/conversation/channel.rs:524-539 | the whole message, or any part of it with an error |
| Channel.SshChannelWriter.ExtendedData | src/conversation/channel.rs:579-602 | the whole message, or any part of it with an error |
| Channel.SshChannelWriter.Notice | src/conversation/channel.rs:671-702 | the whole message, or any part of it with an error |
| Channel.SshChannelWriter.Eof | src/conversation/channel.rs:643-654 | the whole message, or any part of it with an error |
| Channel.SshChannelWriter.Close | src/conversation/channel.rs:657-668 | the whole message, or any part of it with an error |
| Channel.SshChannelReader.NextEvent | src/conversation/channel.rs:442-491 | the event the bytes hold, and the stream behind its header |
| Channel.ChannelDataRead.PollRead | src/conversation/channel.rs:1013-1039 | payload bytes in order; taken plus remaining is constant; nothing from behind the payload |
| Channel.ChannelDataRead.PollAll | src/conversation/channel.rs:1013-1039 | the same over any sequence of buffer sizes |
| Channel.ChannelDataRead.ReadAll | src/conversation/channel.rs:1005-1009 | the whole payload, or an error if the stream ends first |
| Channel.ChannelDataRead.Copy | src/session/client.rs:341-351 | the payload that arrives is written; an end inside it is no error, a failing read is, and then less than a buffer of what arrived may be unwritten |
| Exit.ExitRoundTrip | src/session/mod.rs:372-454 | an exit notice is read back as the status it was made from, up to its last byte |
| Exit.ExitBytes | src/session/process.rs:857-895 | the bytes of the exit notice for every status |
| Exit.StatusTypeText | src/session/mod.rs:783-785 | the type of a status notice is "exit-status" |
| Exit.SignalTypeText | src/session/mod.rs:803-805 | that of a signal notice is "exit-signal" |
| Exit.StatusRead | src/session/client.rs:355-361 | any number is cut down to 32 bits |
| Exit.SignalRead | src/session/client.rs:362-371 | the name and the core flag are taken, the message and its language skipped |
| Exit.SignalNamesMatch | src/session/signal.rs:12-76 | the tables from names to signals and from signals to names are inverse to each other |
| Exit.SignalNameIs | src/session/process.rs:867-870 | a signal without a name of its own is called by its number |
| Exit.NoticeCut | src/session/mod.rs:372-428 | a cut exit payload gives the same result or none |
| Exit.ExitFrameDelimited | src/session/mod.rs:776-810 | exit notices say where they end |
| ClientRelay.RelayOutput | src/session/client.rs:309-394 | returns what the function of the incoming bytes says, or that a local stream refused; writes what it says, or prefixes if a copy failed; in every case the stdin relay is then told to stop, once, and nothing is written after that |
| ClientRelay.ResultIsLastExit | src/session/client.rs:353-377 | a result that is not an error is the last exit notice seen |
| ClientRelay.ReplayCut | src/session/client.rs:319-388 | wherever the stream is cut and however it ends there, both outputs are prefixes and the exit notices seen are the first ones |
| ClientRelay.PassedOver | src/session/client.rs:378-388 | EOF and replies to channel requests are passed over |
| ClientRelay.Ends | src/session/client.rs:373-386 | Close and a notice of any other type end the relay with the exit result so far |
| ClientRelay.Refuses | src/session/client.rs:325-336 | an unknown message or a request that wants a reply is an error, unless an exit notice came before |
| ClientRelay.BadNotice | src/session/client.rs:355-371 | an exit notice that does not decode is an error, even behind another one |
| ServerRelay.SendExitNotification | src/session/process.rs:857-895 | writes the exit notice of the status, or part of it with an error |
| ServerRelay.ReportExit | src/session/process.rs:609-614 | the input relay is stopped when just the messages before the notice are sent |
| ServerRelay.RelayOutputPiped | src/session/process.rs:568-633 | success: all of both outputs in order, exactly one exit notice, input stopped just before it; error: part of such messages |
| ServerRelay.RelayOutputPty | src/session/process.rs:647-691 | the same for a terminal, whose EIO is the end |
| ServerRelay.StopInput.Signal | src/session/process.rs:764-768 | signals at most once |
| ServerRelay.RunPiped | src/session/process.rs:393-413 | success: the relay's messages, EOF, Close and nothing behind; error: part of them; the input relay stopped either way |
| ServerRelay.RunPty | src/session/process.rs:517-540 | the same for a terminal |
| EndToEnd.ReplayFrames | src/session/process.rs:582-618 | any interleaving of output messages is replayed as the bytes of each stream in order |
| EndToEnd.SessionEndToEnd | src/session/client.rs:309-394 | a complete server stream gives the client exactly stdout, stderr and the exit result |
| EndToEnd.SessionCut | src/session/client.rs:319-388 | a cut server stream gives prefixes, and no exit result or the right one |
| EndToEnd.CutOutcome | src/session/client.rs:319-388 | for every place of the cut and every ending: the output that arrived, and the exit result if its notice arrived whole, however the stream ends, unless it fails inside a payload; before that, nothing after a clean end in front of a message or inside an output payload, else an error of the right kind |
| EndToEnd.PipedSession | src/session/process.rs:393-413 | both programs together, over a stream that may be cut: all output and the exit result if it is not, else the result of CutOutcome |
| Glob.GlobMatchIsSplitting | src/config/directives.rs:62-72 | a match if and only if the text splits into one piece for each pattern symbol: any for a star, any byte for a question mark, else the same byte up to the case of a letter |
| Glob.GlobMatchConcat | src/config/directives.rs:62-72 | a concatenated pattern matches if and only if the text falls into two matching parts |
| Glob.GlobMatchIgnoresCase | src/config/directives.rs:62-72 | patterns, and texts, that differ only in the case of ASCII letters match alike |
| Glob.PatternMatches | src/config/directives.rs:44-80 | one leading exclamation mark negates; a second is an ordinary byte |
| SourceText.ComputeLineStarts | src/config.rs:320-328 | the loop computes the index |
| SourceText.SourceFile.LineCol | src/config.rs:275-282 | the lookup in the stored index gives one more than the newlines before the offset, and the distance from the last line start |
| SourceText.LineColCounts | src/config.rs:275-282 | the line is one more than the newlines before the offset; the column counts from the last line start |
| SourceText.LastLineIsOne | src/config.rs:320-328 | the last line start is behind a newline, with none after it |
| SourceText.LineColInverse | src/config.rs:275-282 | a position leads back to its offset |
| SourceText.OffsetInverse | src/config.rs:275-282 | an offset leads back to its position |
| SourceText.MovedIsExact | src/config.rs:123-131 | moving the column is right if and only if no newline lies between |
| SourceText.PartIsLocated | src/config.rs:153-173 | a part's value is its source text, and its position is right if and only if no newline precedes it |
| Tokenizer.Tokenize | src/config.rs:92-150 | the loops compute the tokens, with their locations |
| Tokenizer.TokensPartition | src/config.rs:92-150 | tokens are quoted stretches or whole words, in order and apart, and all else is blank or a quote |
| Tokenizer.QuotedRoundTrip | src/config.rs:107-130 | quoted arguments without quotes inside are taken apart again |
| Tokenizer.SplitComma | src/config.rs:153-173 | the offset arithmetic gives the parts between commas |
| Tokenizer.CommasBetween | src/config.rs:153-173 | the parts fill the string, one comma between neighbours, none inside |
| Tokenizer.OneLineLocations | src/config.rs:285-293 | tokens and comma parts of a one-line argument are where SourceFile::location says |
| ForwardSpec.ListenRoundTrip | src/forward/spec.rs:152-211 | a displayed TCP endpoint parses back as listen-only if and only if its host is empty, plain but not "*", or has a colon and no closing bracket |
| ForwardSpec.ConnectReadBack | src/forward/spec.rs:112-121 | a displayed endpoint is a connect part if and only if its host is plain or has a colon and no closing bracket, or it is an absolute path without colon |
| ForwardSpec.ConnectRoundTrip | src/forward/spec.rs:123-180 | the same behind a port and a colon, in both rules, despite the earlier alternatives |
| ForwardSpec.RuleRoundTrip | src/forward/spec.rs:123-180 | a displayed bind address, a colon and a displayed connect part parse back as that rule if and only if the one can be bound (an absolute path without colon, or a host as for listening) and the other connected to, in both grammars |
| ForwardSpec.StarListens | src/forward/spec.rs:19-28 | the host "*" is displayed like the empty one and read back as that |
| ForwardText.LocalRules | src/forward/spec.rs:98-150 | a text is a local rule if and only if it is a bind address (path, bracketed host, star, name or nothing in front of a port), a colon and a connect part, with ports up to 65535, and the rule is the one it spells, with 127.0.0.1 for a port alone |
| ForwardText.RemoteRules | src/forward/spec.rs:152-211 | the same for remote rules, with localhost, and for a bind address alone that is no path |
| TermModes.ApplyTerminalModes | src/session/pty.rs:148-245 | the settings are the fold of all entries, or untouched after an error |
| TermModes.EntriesReadBack | src/session/pty.rs:157-180 | entries are read up to the first END, undefined opcode or truncated entry; what follows has no effect |
| TermModes.ModesAreEntries | src/session/pty.rs:157-180 | every byte string is its entries and then such an end |
| TermModes.LastEntryWins | src/session/pty.rs:182-239 | every character and flag, except the bits that hold the speeds, ends as the last entry says whose opcode a table of RFC 4254 opcodes and Linux positions gives for it, or as it was |
| TermModes.LastRatesWin | src/session/pty.rs:183-192 | the two rates are the last ones named by opcodes 128 and 129; a value that is no rate changes nothing |
| TermModes.OpcodesAreIndependent | src/session/pty.rs:275-382 | no two opcodes set the same thing, except the two character sizes |

## Left out

- Cancelling a task that waits for a ticket or drains the queue, task panics, and wrap-around of the 64-bit counters.
- Conversation.ConversationShared.AcquireWriter: one turn of its loop with nothing interfering; what other tasks may do between its steps is in `ControlStream`.
- Conversation.OrderedAccess.Acquire: one turn of its loop too; the two loads as separate steps, the wait and the notification are in `ControlStream` and `Wakeup`.
- ControlTheorems.AnswersPaired: about runs in which the reader is in step; what it reads once it is not is any value.
- WriterWakeup: sending a message or a failure and advancing the counter are one step; tasks are not added during a run, but any number may wait to begin.
- Shutting a session down from outside, terminating the process group, the process's input, and the client's stdin relay. A session that is shut down leaves a cut stream, which `SessionCut` covers.
- Streams, sockets, PTYs, processes, PAM and the HTTP and QUIC layers: a stream is a byte sequence with an end, a child's exit a nondeterministic choice, a terminal an object whose attribute calls may fail.
- Strings and payloads of 2^62 bytes and more, which no buffer reaches and which the writer refuses or panics on.
- The `data_from` and `extended_data_from` writers after a source that is too short (they leave a broken message by design), and the initialisation tracking of read buffers.
- Channel requests that want a reply, channel opening, and the remaining payload structs.
- TermModes.LastEntryWins: says nothing about the bits of the control and input flags in which the C library keeps the two speeds; they are fields of their own here (`LastRatesWin`).
- Paths in locations, and the parser of whole configuration files, including its recovery from a bad line.
- Displaying whole forwarding rules, which print an arrow or an unbracketed host and are no inverse of the grammar; the dynamic rule.
- Delivering the signals a client sends, version negotiation, authentication, SOCKS5 and the forward tables.
