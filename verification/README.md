# A verified model of the libbayeux client

libbayeux is a C client for the Bayeux Protocol 1.0, a publish-subscribe protocol over HTTP long polling.
This project models its engine (`src/bayeux.c`), the growable string on which outgoing texts are built
(`src/str.c`) and the reassembly of response bodies (`src/transport_http_long_polling.c`), and proves what
they keep over whole runs. `dafny verify dfyconfig.toml` checks all of it.

## How the model is built

The client is described twice, and the two descriptions are proved to agree.

* `Engine` is a state machine on values. A `State` holds the fields of the C struct, the outbox as a sequence
  of `Entry` records, the subscription table as one flat log, and a `History`. An `Event` is an API call, a
  timer, a batch of messages from the server or a failed send; `Step` is one turn of the event loop and `Run`
  any sequence of turns. The theorems are about every run.
* `Client.BayeuxClient` is the program: fields updated in place, over `Outbox.MsgQueue` (four parallel
  arrays of shared, reference-counted JSON objects, grown with `realloc` and shifted with `memmove`),
  `Channels.ChannelTable` (an array of channels, each with its own array of subscriptions),
  `GrowableString.Str` and 32-bit wrapping id counters. Every method ensures that `Abs()`, the state that the
  object stands for, makes exactly the corresponding step of the machine. `BayeuxClient.Dispatch` puts them
  together: driven by any events, the object goes through the states of the machine's run.

What the machine does is then stated a second time without going through its steps: `Effects` gives the
whole new state after each event, `Requests` what a server reads in the messages that are queued and sent, and
`Calls` how registrations and callbacks follow from the calls that the application makes.

Theorems about runs go through one induction principle, `Runs.Everywhere`: what every small action preserves
holds after every run, with application code calling back into the API from inside event callbacks at any
point. What a callback calls is part of the message that triggers it (`Incoming.reactions`), so every
behaviour of the application is covered.

Some fields are history that the C program does not store: the order of all pushes (`serial`, `pushed`), how
many ids had been handed out when an entry got its own (`msgTick`, `batchTick`), what was sent, dispatched and
called back, and four flags. `overlapped` marks that a handshake was queued while a message of another kind was
in flight, `parked` that the connect timer has fired under advice `none`. The other two mark where the machine
stops following the C program:

* `overrun`, a subscription written past the end of its channel's array, which is undefined in C. The machine
  goes on as if it had not been asked for.
* `staleRead`, a flush at an index past the last entry. In C that slot is still allocated and holds what an
  earlier `memmove` left there, so the program sends that message again or for the first time and writes the
  new ids into the dead slot, where no reply will find them (or, if the message has been freed, the read is
  undefined). In `StaleRun`, for one, the handshake's text goes out. The machine sends nothing.

When the flags are raised is itself a theorem. Theorems about all runs range over runs past that point too, but
say nothing about the C program there.

`Timely` runs are those behind the program's own transport: it only responds, so messages and send errors come
after something has been sent; `Paired` runs, which are timely, count them too: at most one response to each
text sent. Theorems that need either say so; all others hold for any order of events.

How json-c prints an object is a parameter, `toText`. Where the texts matter it is assumed never to be empty,
and where a reader cuts them apart again, to have balanced brackets and no comma outside them, as the texts
of JSON objects do.

Reply ids are what `strtoul` with base 16 makes of them, with its spaces, signs, prefix and saturation. Where a
theorem needs that no reply id decodes to `0xffffffff`, it says so (`ValidReplies`, `Replies`), and
`Answers.UnsentIsAnsweredExactly` says what happens otherwise.

| module | contents |
|---|---|
| `Bits`, `Memory` | masks on fixed-width integers, `realloc`, `memmove`, `memcpy` |
| `GrowableString`, `ResponseBuffer` | the two growing buffers |
| `Ids`, `Documents` | id generators, id texts, JSON messages |
| `Engine`, `Runs` | the state machine and the induction principle |
| `Effects`, `Requests`, `Calls` | what each event does, what a server reads in the messages, what the application's calls lead to |
| `Ledger`, `Conservation`, `Correlation` | what the outbox holds, ids in flight, replies and acknowledgements |
| `Connecting`, `Sessions` | polling, wake-ups, and sessions on their way |
| `Handshaking`, `FirstCall` | the handshake index and the gate |
| `Retrying`, `Answers`, `Delivery` | retries, answers, and delivery that stays possible |
| `Subscriptions`, `ClientIds` | event delivery, client ids |
| `WireText`, `Sending` | the texts of batches and how a reader splits them |
| `Outbox`, `Channels`, `Client`, `Wire` | the program's objects, and what the theorems say about its texts |
| `Findings` | runs in which the program does less than one would expect |

## What does not hold

* **The handshake index can go stale.** `handshake_msg_index` is not adjusted when an earlier entry is removed.
  `StaleIndexIsReachable` gives seven turns, with replies only to messages that were sent, after which a flush
  uses a slot past the last entry. `IndexHoldsExactly` has the condition: the index of a new handshake holds in
  every continuation if and only if no other kind of message is in flight when it is issued.
* **Any reply to a handshake opens the gate**, also a failure; the messages waiting behind it then go out
  without a client id, which the comments in `src/bayeux.c` (lines 570-573, 623-626, 639-642) say they must
  contain. `NamelessUntilHandshake` and `AnyHandshakeReplyOpensGate` say exactly which messages carry one, and
  `NamelessIsReachable` gives a run.
* **A handshake reply without a boolean `successful` field** leaves the client in the connecting state, and no
  later timer, call or reply starts another handshake unless the server advises one. `UnclearReplySticks` says
  exactly which replies do that, `StuckIsReachable` gives a run of three turns, `StuckForGood` says what follows,
  and `SessionGoesOn` that nothing else stops a session except advice `none`.
* **A reply id that decodes to `0xffffffff`**, such as `-1`, answers the first message not yet sent
  (`UnsentIsAnsweredExactly`, `UnsentCanBeAnswered`), and a text without digits decodes to the real id 0.
  `DecodesToInvalidExactly` and `DecodesToZeroExactly` list these texts.
* **A channel has room for 16 subscriptions**: its capacity goes from 4 to 16 and stays there.
  `AllRegisteredExactly` and `TableIsFaithful` have the exact condition, `SeventeenthOverruns` a run.
* **A publish on one of the protocol's own channels**, such as `/meta/connect`, is queued and sent like any other;
  a server that goes by the channel cannot read it. `CallReadsBack` says that these are the only such calls.
* **The engine by itself** would let the first call's message out without a handshake if advice `none` came
  before any handshake was queued (`EarlyAdviceOpensGate`, `FirstCallDecides`). The program's transport cannot
  deliver that: in timely runs the gate always holds (`GateAlwaysHolds`).
* `src/bayeux.h` says that creating a client begins establishing a connection. In the code, and in timely runs
  of the model, nothing happens before the first API call (`NothingBeforeFirstCall`).

## Model

| member | source | states |
|---|---|---|
| Bits.RoundUpBounds | src/transport_http_long_polling.c:165 | for any mask m of any width, all-ones or not, `(x+m) & ~m` lies between x and x+m without overflow, and at most where the wrapped sum lies with it |
| Bits.RoundUpAligned | src/str.c:67 | with an all-ones mask the result is the least multiple of the power of two that is at least x |
| Bits.MaskClears | src/transport_http_long_polling.c:165 | for any mask of any width, what the mask clears has no bit in common with it |
| GrowableString.GrownSuffices | src/str.c:54-73 | the buffer has room for the text and its terminator if and only if neither 32-bit addition wraps |
| GrowableString.GrowthIsBounded | src/str.c:57-71 | capacity never shrinks; a regrown one is twice the need below 2048 and otherwise at least the need and at most the need plus 2047 |
| GrowableString.LargeStringsArePaged | src/str.c:66-68 | large strings grow to the least whole number of 2048-byte pages |
| GrowableString.Str.constructor | src/str.c:81-90 | an empty, terminated string with one place more than asked for |
| GrowableString.Str.Expect | src/str.c:54-73 | the new capacity, wrap-around included, with as much of the old buffer as fits kept |
| GrowableString.Str.Cat | src/str.c:93-103 | contents become the old contents followed by the text; the terminator stays at the length, inside the capacity |
| GrowableString.Str.Clear | src/str.c:106-110 | contents become empty; capacity stays |
| GrowableString.Str.Len | src/str.c:121-124 | the length of the contents |
| ResponseBuffer.GrownSuffices | src/transport_http_long_polling.c:161-167 | a chunk and its terminator fit if and only if neither 64-bit addition wraps past the capacity |
| ResponseBuffer.GrowthIsBounded | src/transport_http_long_polling.c:163-166 | every regrowth lands between the size needed and 4093 bytes more, although 4093 is not an all-ones mask |
| ResponseBuffer.GrownIsMasked | src/transport_http_long_polling.c:163-166 | a regrown capacity has no bit in common with 4093, and capacity changes only when needed |
| ResponseBuffer.ConnInfo.constructor | src/transport_http_long_polling.c:299-309 | the zeroed record of a new request holds no text |
| ResponseBuffer.ConnInfo.MakeRoom | src/transport_http_long_polling.c:161-167 | the new capacity, wrap-around included, with as much of the old block as fits kept |
| ResponseBuffer.ConnInfo.Write | src/transport_http_long_polling.c:158-177 | the text becomes the old text followed by the chunk, terminated within the capacity |
| ResponseBuffer.ConnInfo.Receive | src/transport_http_long_polling.c:158-177 | however a body is cut into chunks, the buffer ends up with the same text and at most 4094 bytes more than it |
| Ids.GeneratorFollowsSequence | src/bayeux.c:442-459 | the 32-bit counter, with its skip over the invalid id, always holds the next id of the sequence |
| Ids.IdsCollide | src/bayeux.c:442-459 | two ids handed out are equal if and only if a whole number of periods of 2^32-1 lies between them |
| Ids.IdTextRoundTrip | src/bayeux.c:273-295 | every 32-bit id prints in one to eight digits, is never truncated, and parses back to itself |
| Ids.IdTextInjective | src/bayeux.c:286-295 | two ids print alike if and only if they are equal |
| Ids.IdTextExactly | src/bayeux.c:289-292 | the text of an id is the one text of lower-case base-16 digits without leading zeros that stands for it, by character codes |
| Ids.StrtoulReads | src/bayeux.c:276 | space, a sign, an optional `0x` and digits in either case, followed by anything else, read as the number that the digits stand for, saturated at 64 bits and negated after a minus sign |
| Ids.GarbageDecodesToZero | src/bayeux.c:276 | any text with no digit after leading space, a sign and `0x` decodes to 0, which is a real id |
| Ids.DecodesToZeroExactly | src/bayeux.c:276 | a text decodes to 0 if and only if its number is a multiple of 2^32 that does not saturate, whatever the sign |
| Ids.DecodesToInvalidExactly | src/bayeux.c:276 | a text decodes to the invalid id if and only if its number saturates, or is one below a multiple of 2^32, or one above it after a minus sign |
| Ids.MinusOneDecodesToInvalid | src/bayeux.c:276 | the text `-1` decodes to the id that marks messages not yet sent |
| Documents.LabellingKeepsTheRest | src/bayeux.c:343-352 | the labels added on sending change no other field, carry the id's text and the client id, and replace older labels |
| Engine.Find | src/bayeux.c:317-325 | the first entry with an id, or -1 exactly when no entry has it |
| Effects.CallEffects | src/bayeux.c:910-948 | the whole new state after an API call, but for what `Requests` and `Calls` say of its log entries |
| Effects.TimerEffects | src/bayeux.c:462-487 | the same for the connect timer and the handshake timer |
| Effects.MessageEffects | src/bayeux.c:506-535 | the whole new state after a message without data: a successful handshake reply connects and sets the client id, a refused one disconnects and arms the handshake timer, an unclear one does neither; advice to handshake resets; a connect reply arms the connect timer; the entry answered is removed |
| Effects.EventEffects | src/bayeux.c:661-678 | an event answers and sends nothing, acts through its callbacks only, and is dropped without a channel |
| Effects.BatchWakesExactly | src/bayeux.c:538-548 | after a batch of replies a flush is pending if and only if one was or something is left |
| Effects.FlushEffects | src/bayeux.c:329-399 | a flush sends exactly one text, empty if and only if the outbox is or the gate is closed behind a handshake in flight; otherwise its messages have consecutive new ids under the next batch id, and the client id if one is known |
| Effects.AdviceIsRemembered | src/bayeux.c:223-254 | after every run the client follows the last reconnect advice received that the protocol knows, and keeps the last interval |
| Requests.CallReadsBack | src/bayeux.c:603-651 | a server that goes by the channel field reads in the message of a call what the call asks, if and only if it is not a publish on one of the protocol's own channels |
| Requests.ConnectReadsBack | src/bayeux.c:569-582 | it reads a long poll in a connect |
| Requests.HandshakeReadsBack | src/bayeux.c:585-601 | it reads version 1.0 and long polling in a handshake |
| Requests.ReadingDetermines | src/bayeux.c:569-651 | what it reads determines the whole message but for its labels |
| Requests.QueuesExactly | src/bayeux.c:783-828 | what each event queues, as read: a call its own message, behind a handshake if unconnected and a connect if none is outstanding, unless advised none; the connect timer the same without a message; the handshake timer at most a handshake; nothing else anything |
| Requests.RequestsFollowCalls | src/bayeux.c:910-948 | in every run what is queued, handshakes and connects apart, reads as the calls that the application makes, through the API and from its callbacks, in their order |
| Requests.SentReadsBack | src/bayeux.c:329-399 | in every run what a server reads in each message sent is what was queued in its place |
| Calls.CallRegisters | src/bayeux.c:922-925 | a subscribe call registers its channel, callback and context, the other calls nothing |
| Calls.RegistrationsFollowCalls | src/bayeux.c:163-201 | in every run what is registered is what the subscribe calls ask for, in order |
| Calls.KeepsFirst | src/bayeux.c:192-200 | the table keeps exactly the first 16 subscriptions of each channel |
| Calls.EventsGoWhereAsked | src/bayeux.c:204-220 | after every run an event calls back the callbacks and contexts of the subscribe calls made to its channel in the run, in order, with its data; beyond 16 the first 16 |
| WireText.SplitUndoesJoin | src/bayeux.c:357-365 | cutting the array text at its top-level commas gives back the joined texts, in order |
| Sending.FlushTextIsReadable | src/bayeux.c:329-367 | a reader of a flush's text recovers exactly the texts of the messages that were waiting, in queue order; afterwards nothing is waiting |
| Sending.NothingWaitingText | src/bayeux.c:340-366 | with everything in flight already the text is `[]` |
| Sending.BodyGrows | src/bayeux.c:357-361 | the comma written when more than one character has been written is a comma between texts, and what has been written never exceeds the whole |
| Sending.FlushToEnd | src/bayeux.c:340-363 | labelling the entries one by one gives the queue in which every waiting entry has consecutive new ids |
| Outbox.MsgQueue.constructor | src/bayeux.c:298-305 | an empty queue with room for 64 |
| Outbox.MsgQueue.Grow | src/bayeux.c:403-409 | room for one more entry, by 64 places when full; contents unchanged |
| Outbox.MsgQueue.Push | src/bayeux.c:402-422 | the four arrays stand for the old records followed by the new one, with no ids and one reference more |
| Outbox.MsgQueue.PushNew | src/bayeux.c:799-802 | after a push the queue holds the only reference to the message |
| Outbox.MsgQueue.CloseGap | src/bayeux.c:431-439 | the four moves keep the arrays in step: the records are the old ones without the removed one, the rest in order |
| Outbox.MsgQueue.RemoveOrdered | src/bayeux.c:425-439 | exactly the entry at the index is gone, its last reference is released, and no other place refers to it |
| Outbox.MsgQueue.FindByMsgId | src/bayeux.c:317-325 | finds what `Engine.Find` specifies |
| Outbox.MsgQueue.Label | src/bayeux.c:343-355 | the JSON object and both id arrays of one entry are updated together, and no other entry is |
| Outbox.MsgQueue.ClearBatch | src/bayeux.c:490-500 | exactly the entries of the failed batch lose both ids |
| Channels.AllRegisteredExactly | src/bayeux.c:192-200 | every subscription is kept, in order, if and only if no channel gets more than 16 |
| Channels.Channel.Add | src/bayeux.c:192-200 | appends to the channel's array, grown from 4 to 16 places, unless it is full at 16, which is where the program writes past its end |
| Channels.ChannelTable.FindChannel | src/bayeux.c:164-171 | finds the channel with a name if there is one |
| Channels.ChannelTable.NewChannel | src/bayeux.c:173-190 | adds one empty channel with a name that no other has |
| Channels.ChannelTable.Subscribe | src/bayeux.c:163-201 | the table of arrays stands for the flat log with the subscription added, if its channel has room |
| Client.BayeuxClient.constructor | src/bayeux.c:847-886 | a new client is in the machine's initial state |
| Client.BayeuxClient.NextMessageId | src/bayeux.c:452-459 | hands out the next id of the message id sequence |
| Client.BayeuxClient.NextBatchId | src/bayeux.c:442-449 | hands out the next id of the batch id sequence |
| Client.BayeuxClient.PushMessage | src/bayeux.c:799-802 | makes the machine's push and returns the new entry's index |
| Client.BayeuxClient.ScheduleFlush | src/bayeux.c:561-566 | the flush timer is pending |
| Client.BayeuxClient.ScheduleConnect | src/bayeux.c:551-559 | the connect timer is pending |
| Client.BayeuxClient.IssueHandshake | src/bayeux.c:808-828 | makes the machine's handshake step, its two early exits included |
| Client.BayeuxClient.IssueConnect | src/bayeux.c:783-805 | makes the machine's connect step, its two early exits included |
| Client.BayeuxClient.CallApi | src/bayeux.c:910-948 | publish, subscribe and unsubscribe make the machine's call step |
| Client.BayeuxClient.CallBackAndReact | src/bayeux.c:216 | one event callback, with whatever API calls the application makes inside it |
| Client.BayeuxClient.DeliverTo | src/bayeux.c:212-217 | calls exactly the subscriptions that the channel had when delivery began, though callbacks may add more and move the array |
| Client.BayeuxClient.ChannelDeliver | src/bayeux.c:204-220 | looking through all channels delivers the event to the subscriptions logged for its name, once |
| Client.BayeuxClient.TakeReconnect | src/bayeux.c:229-245 | a known reconnect string sets the advice, an unknown one leaves it |
| Client.BayeuxClient.HandleAdvice | src/bayeux.c:223-263 | makes the machine's advice step |
| Client.BayeuxClient.RecvEvent | src/bayeux.c:661-678 | makes the machine's event step; an event without a channel is discarded |
| Client.BayeuxClient.RecvHandshakeError | src/bayeux.c:681-694 | the handshake timer is pending and the client unconnected |
| Client.BayeuxClient.RecvHandshakeSuccess | src/bayeux.c:697-741 | stores the client id and connects, or fails on a missing or wrong channel or a missing id |
| Client.BayeuxClient.RecvHandshakeReply | src/bayeux.c:744-760 | makes the machine's handshake reply step |
| Client.BayeuxClient.RunHandler | src/bayeux.c:529-530 | runs the handler that the entry names |
| Client.BayeuxClient.RecvReply | src/bayeux.c:513-534 | makes the machine's reply step, unknown and missing ids included |
| Client.BayeuxClient.OnMsgRecv | src/bayeux.c:506-535 | makes the machine's step for one message |
| Client.BayeuxClient.OnBatchRecv | src/bayeux.c:538-548 | makes the machine's step for a batch of messages |
| Client.BayeuxClient.FlushOneMessage | src/bayeux.c:370-399 | the text is the array of the one message, or empty, and the queue is as the machine's single flush leaves it |
| Client.BayeuxClient.FlushLoop | src/bayeux.c:340-363 | the loop writes the comma-joined texts of the waiting entries and labels them one by one |
| Client.BayeuxClient.FlushQueue | src/bayeux.c:329-367 | the text is the array of the waiting messages, or empty, and the queue is as the machine's full flush leaves it |
| Client.BayeuxClient.OnEvTimeoutFlush | src/bayeux.c:468-480 | makes the machine's flush step and hands over its text |
| Client.BayeuxClient.TransportSend | src/bayeux.c:478 | the text on the wire is the text of the transmission in the history |
| Client.BayeuxClient.OnEvTimeoutConnect | src/bayeux.c:462-465 | makes the machine's connect timer step |
| Client.BayeuxClient.OnEvTimeoutHandshake | src/bayeux.c:483-486 | makes the machine's handshake timer step |
| Client.BayeuxClient.OnBatchSendErr | src/bayeux.c:490-503 | makes the machine's send error step |
| Client.BayeuxClient.Turn | src/bayeux.c:462-548 | one turn of the event loop is one step of the machine |
| Client.BayeuxClient.Dispatch | src/bayeux.c:462-548 | over any sequence of events the object makes the machine's run |
| Runs.Everywhere | src/bayeux.c:462-548 | what every action preserves holds after every run, with application code called back at any point |
| Ledger.EntriesAreKept | src/bayeux.c:329-399 | in every reachable state: batch id invalid if and only if message id invalid; both are the ids handed out for the entry; its JSON object carries that id's text, also after a retry; without labels it is the message pushed, with its handler; no two entries share an id's place in the sequence |
| Ledger.HandlerLeavesOutbox | src/bayeux.c:654-781 | no reply handler touches the outbox, so the index found before it is still right |
| Conservation.MessagesAreConserved | src/bayeux.c:402-439 | in every reachable state the outbox is all pushed messages minus the dispatched ones, in push order, and nothing is dispatched twice or to another's handler |
| Correlation.InFlightIdsDiffer | src/bayeux.c:329-399 | in every reachable state message ids in flight differ, and batch ids are equal if and only if one flush sent both, while fewer than one period has been handed out since the oldest |
| Correlation.RepliesAreCorrelated | src/bayeux.c:506-535 | in every reachable state a reply that echoes the id in an in-flight message runs that message's own handler and removes exactly that message |
| Correlation.ReplyRunsOwnHandler | src/bayeux.c:513-534 | the same for any outbox whose ids in flight differ |
| Correlation.RepliesRemoveAnswered | src/bayeux.c:538-543 | what a batch of replies removes depends only on the set of ids answered, not on order, repetition or unknown ids |
| Correlation.BatchIsAcknowledged | src/bayeux.c:506-548 | in every reachable state, replies to one batch in any order leave exactly the outbox without that batch, and a flush pending if anything is left |
| Connecting.AtMostOneConnect | src/bayeux.c:783-805 | in every reachable state the number of connects in the outbox is one if the in-flight flag is set and else none |
| Connecting.PollingGoesOn | src/bayeux.c:654-658 | once a connect has been queued: one is in the outbox, or the connect timer is pending, or it fired under advice none since the last one was queued |
| Connecting.NoneIsObeyed | src/bayeux.c:783-828 | while the advice stays none no handshake and no connect is queued, whatever else happens |
| Connecting.WakeUpsAreNotLost | src/bayeux.c:538-566 | between turns, an entry without an id waits only with a flush pending, or behind a handshake that is itself in flight, or behind a stale index |
| Connecting.ClientIsNeverSilent | src/bayeux.c:538-566 | in every run with at most one response to each request, while something is queued a flush is pending or a request is unanswered, until a flush at a stale index |
| Sessions.SessionGoesOn | src/bayeux.c:681-760 | from any state with a session on its way (connected, or connecting with a handshake queued, or unconnected with the handshake or connect timer pending), it is on its way after every turn and message of a run if and only if the run holds no reply that stalls it and no last such timer firing under advice none |
| Sessions.ReceiveProgress | src/bayeux.c:506-535 | a message stops a session if and only if it answers the only handshake queued by a connecting client, has no boolean `successful` and leaves no advice to handshake again |
| Sessions.TimersStartSessions | src/bayeux.c:462-487 | the connect timer and the handshake timer each queue a handshake when unconnected, unless the advice is none |
| Sessions.RefusedIsRetried | src/bayeux.c:681-694 | after a refused handshake, in every continuation without advice none, the handshake timer stays pending until another handshake is queued or answered, and once it has fired one has been |
| Sessions.FirstCallStartsSession | src/bayeux.c:910-948 | the first call puts a session on its way |
| Handshaking.HandshakeIndexIsSound | src/bayeux.c:808-828 | unless a handshake was queued with another kind of message in flight, the index is -1 or names a queued handshake with only handshakes in flight, and no flush reads past the queue |
| Handshaking.IndexHoldsExactly | src/bayeux.c:808-828 | in every reachable state in which a handshake may be issued, within one period of ids: its index stays in range and on a handshake until a handshake is answered, in every continuation, if and only if no other kind of message is in flight when it is issued |
| Handshaking.IndexSurvivesExactly | src/bayeux.c:425-439 | when an entry of another kind is removed the index still names the same handshake if and only if that entry was behind it |
| Handshaking.HandshakeGoesFirst | src/bayeux.c:468-480 | a client whose life starts with a call sends only single handshakes until one is answered, through calls, advice, repeated handshakes and send errors |
| FirstCall.FirstCallDecides | src/bayeux.c:808-817 | of the engine without its transport: whatever is received before the first call, the gate holds in every continuation if and only if something was queued already or the advice at that call is not none |
| FirstCall.NothingBeforeFirstCall | src/bayeux.c:910-948 | behind a transport that only responds, a client is still in its initial state at its first call |
| FirstCall.GateAlwaysHolds | src/bayeux.c:468-480 | in every run behind such a transport, whenever the first call comes and whatever is advised, nothing but single handshakes is sent until one is answered |
| Retrying.RetryIsExact | src/bayeux.c:490-503 | with the gate open, a failed batch and a flush send exactly that batch's surviving entries and those never sent, in order, with the labels they now carry, fresh ids and one new batch id; no other entry changes |
| Retrying.SentOnceUnlessFailed | src/bayeux.c:329-367 | from every reachable state, an in-flight message keeps its ids and is not sent again in any continuation in which its batch does not fail |
| Retrying.ExchangeCompletes | src/bayeux.c:329-367 | replies echoing the ids in a flush's messages, in any order, bring the outbox back to what was in flight before the flush |
| Answers.AnsweredWereSent | src/bayeux.c:506-535 | in every run, whatever has been dispatched as answered had been sent, if no reply id decodes to the invalid id |
| Answers.UnsentIsAnsweredExactly | src/bayeux.c:317-325 | the next reply breaks this if and only if its id decodes to the invalid id and the first waiting message has never been sent |
| Answers.UnsentCanBeAnswered | src/bayeux.c:513-534 | the reply id `-1` takes the handshake before it is sent |
| Delivery.DeliveryStaysPossible | src/bayeux.c:462-548 | after every run with at most one response to each request, if a request is unanswered or the handshake index is not stale, there is a continuation of the same kind, without calls and send errors, after which everything ever queued has been answered; ids may collide, the client may be stuck, the advice may be none |
| Delivery.UnlessOverlapped | src/bayeux.c:808-828 | the index is not stale in any run in which no handshake was queued with another kind of message in flight |
| Delivery.Drains | src/bayeux.c:506-548 | replies in queue order empty the outbox of everything in flight even where ids collide, and leave the rest in order |
| Subscriptions.EventReachesSubscribers | src/bayeux.c:204-220 | an event calls exactly the subscriptions its channel had when it arrived, once each, in order, with its data, whatever the callbacks do |
| Subscriptions.TableIsFaithful | src/bayeux.c:163-201 | in every reachable state the table is the list of all subscriptions asked for unless some channel was given more than 16; that is exactly when an array is written past its end |
| Subscriptions.SeventeenthOverruns | src/bayeux.c:192-200 | n subscriptions to one channel write past its array if and only if n is more than 16 |
| ClientIds.NamelessUntilHandshake | src/bayeux.c:349-352 | while no client id is known nothing queued or sent carries one |
| ClientIds.NamedEverAfter | src/bayeux.c:349-352 | once a client id is known every message sent carries one |
| ClientIds.AnyHandshakeReplyOpensGate | src/bayeux.c:744-760 | any reply to a handshake opens the gate, and the next flush sends one batch of exactly the waiting messages in order, with client ids if and only if this or an earlier handshake succeeded |
| ClientIds.NamelessIsReachable | src/bayeux.c:681-694 | four turns, with a refused handshake, after which a connect and a publish go out without a client id |
| Findings.StaleIndexIsReachable | src/bayeux.c:425-439 | seven turns with replies only to messages sent make a flush use a slot past the last entry |
| Findings.EarlyAdviceOpensGate | src/bayeux.c:814-817 | of the engine without its transport: advice none before the first call lets a publish out without a handshake |
| Findings.UnclearReplySticks | src/bayeux.c:744-752 | a reply leaves a client that was on its way connecting with no handshake queued and none advised if and only if it answers the only handshake queued, has no boolean `successful` and leaves no advice to handshake again |
| Findings.StuckIsReachable | src/bayeux.c:744-752 | three turns lead there |
| Findings.StuckForGood | src/bayeux.c:808-812 | from there, in every run without advice to handshake, the client stays stuck and queues no handshake at all |
| Findings.ActStaysStuck | src/bayeux.c:257-262 | each action ends that state if and only if it is advice to handshake |
| Wire.WireCarriesHandshakeFirst | src/bayeux.c:468-480 | until a handshake is answered, each text that a client object has handed over is empty or a one-element array of a labelled handshake |
| Wire.WireBehindTransport | src/bayeux.c:468-480 | the same for any life of a client object behind a transport that only responds |

## Left out

- Str.Cat: requires that the two 32-bit additions do not wrap, which is exactly when the C code stays inside its buffer (`GrowableString.GrownSuffices`); what the C code does otherwise is undefined.
- Str.constructor: requires that the capacity plus one does not wrap; the C code passes 4096.
- ConnInfo.Write: requires that the 64-bit additions do not wrap, for the same reason as `Str.Cat`.
- ConnInfo.Receive: requires that the whole body is shorter than 2^64 - 4094 bytes.
- FlushOneMessage: requires that the message's text is shorter than 2^32 - 2048 characters, and so do `FlushQueue`, `OnEvTimeoutFlush`, `Turn` and `Dispatch` for their texts; the C code would overflow its buffer.
- OnEvTimeoutFlush: at an index past the last entry the model raises a flag and stops, where the C code goes on with what that slot still holds (see above).
- HandshakeIndexIsSound: one direction only; the exact condition, for one handshake and every continuation, is `Handshaking.IndexHoldsExactly`.
- EarlyAdviceOpensGate: needs a message before anything has been sent, which the program's transport cannot deliver; `FirstCall.GateAlwaysHolds` is the theorem behind it.
- DeliveryStaysPossible: says nothing where every request has been answered and the handshake index is stale; the next flush there is where the model stops following the C code.
- EventReachesSubscribers: for channels with more than 16 subscriptions the calls are those to the stored 16; what the C code does there is undefined.
- libcurl and libevent plumbing: the transport is a log of texts and a timer a pending flag; which events come, and when, is arbitrary.
- json-c parsing and printing: printing is the parameter `toText`, and what is received comes already parsed; a response that is not an array is not modelled.
- Timer durations, the interval's effect on them, and `timeout_ms`: nothing is said about elapsed time.
- `str_reserve`: it adds the capacity that is missing to the length, so it has no useful contract, and the header does not declare it.
- 32-bit `int` counts and capacities of the queue and the channel array, and failing allocations.
- `unsigned long` is taken to have 64 bits in `strtoul`, and `size_t` 64 bits in `on_curl_write`.
- Application callbacks that destroy the client or run the event loop themselves.
- `on_batch_send_err` has no caller in the source; it is modelled as an event that may happen at any time with any batch id.
- The callback that `bayeux_client_unsubscribe` should remove, and channel globbing: both are marked TODO in the source.
- Logging, option defaults, destroying the client, and the dispatch in `src/transport.c`: nothing in them constrains the rest.
- `samples/pingpong`: a demo program.
