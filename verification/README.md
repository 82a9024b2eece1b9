# Centro: a verified model

Centro is a publish-subscribe server. Clients present authorization tokens, connect over one of several transports, and
publish and subscribe to topics scoped by token issuer. This project models the parts of Centro that hold state or
transform data in ways that are easy to get wrong, and proves properties of them over every input, run or reachable
state. `dafny verify dfyconfig.toml` checks all of it.

## Components

| files | what they model |
|---|---|
| `Regex.dfy`, `Pattern.dfy`, `PatternReader.dfy` | the compiler from topic limits to one regular expression, ECMA-262's matcher (section 22.2.2) for the syntax it uses, and a reader of its grammar (section 22.2.1) |
| `Lifecycle.dfy`, `LifecycleSteps.dfy`, `Server.dfy` | connections, the indexes `_connections` and `_connids`, key revisions and the shutdown protocol: a state machine whose steps are callbacks, and the class that takes those steps by updating its fields |
| `Expiry.dfy` | expiry timers of token records, with `setTimeout`'s longest delay |
| `Authz.dfy` | authorization attempts, the verdict on their tokens, and their end at shutdown |
| `Texts.dfy`, `Tokens.dfy`, `Bytes.dfy`, `Utf8.dfy`, `ReadFrame.dfy` | the token list as one text, UTF-8 (section 8.1.1 of the WHATWG Encoding standard), and the reader of one length-prefixed frame from a stream cut anywhere |
| `Numerals.dfy`, `Json.dfy`, `EventStream.dfy`, `Sse.dfy` | messages interleaved by id in server-sent events (section 9.2.6 of the WHATWG HTML standard) carrying JSON (RFC 8259), on a whole response, and the page that puts them back together from its bytes |
| `HttpResponse.dfy` | the head and the end of an HTTP response under every order of calls, events and exceptions |
| `ClientSubs.dfy`, `Client.dfy` | a client's subscriptions beside each handler's nested maps of wrappers |
| `TopicRewrite.dfy` | expanding `${self}` and prefixing topics, and the way back |
| `Isolation.dfy`, `Access.dfy`, `Session.dfy` | topics a connection's tokens allow, and those the server publishes for it, under issuer hashes |
| `Pipeline.dfy` | handlers in a row for one event |
| `InMem.dfy` | the in-memory pair of streams with back-pressure |
| `LimitActive.dfy` | counters shared by all connections |
| `Wrappers.dfy`, `Sets.dfy` | an optional value, and sizes of sets |

Each state machine has a pure `Step`, an invariant kept by every step, and theorems over all runs. Where the source
updates objects, a class has those fields, its methods follow the source's branches and loops, and each method's
contract says that the new state is the step of the old one; the theorems about steps are then theorems about the
methods.

## Where the code does something other than expected

* `_connections` can gain records after closing has started: `process_handshake` looks at `closed`, not at `_closing`, so
  a connection accepted before the close still takes its second handshake. `Lifecycle.RecordAddedWhileClosing` gives a
  run, and `Lifecycle.Additions` says exactly which steps add what. The close does not depend on it:
  `Lifecycle.ClosedOnce` and `Lifecycle.ShutdownEnds` hold all the same.
* `read_frame` goes on reading after it has reported an error, so an oversized frame followed by more chunks in the same
  readable event is reported more than once. `ReadFrame.FailsTwice` gives an input and `ReadFrame.CallsPerEvent` the
  exact condition. Node.js's `read()` joins what is buffered, so this takes a stream whose `_read` pushes before it
  returns. `got_tokens` ignores all reports but the first (`Authz.EndsOnce`).
* When a pending attempt's destroy reports back before it returns, the shutdown gives the transport both the destroy and
  the outcome. `Authz.BothReachOne` gives a run and `Authz.BothReach` the exact condition.
* The handler of an event stream is subscribed before the stream's head is written, and writes without looking at it. A
  message that arrives before the last topic is subscribed to sends an implicit head, the stream never starts, and the
  page shows nothing. `HttpResponse.WriteBeforeHead` and `Sse.EarlyMessageLost` give inputs;
  `HttpResponse.SubscribedExactly` and `Sse.MessagesRecovered` give the exact condition.
* After such a write a failing `done` with an error text cannot set its header fields, and leaves the response open
  without its text. `HttpResponse.FailureLeavesOpen` gives an input, `HttpResponse.DoneEnds` the exact condition, and
  `HttpResponse.NeverEnded` shows that no later write or failure ends it.

## Model

| member | source | states |
|---|---|---|
| Regex.RunFindsSpans | lib/pattern.js:9-21 | The backtracking matcher of ECMA-262, with continuations and either direction, accepts exactly the spans of a declarative relation between positions. |
| Pattern.PatternMeansLimits | lib/pattern.js:6-23 | For every text and all limits with at least one word: the generated pattern matches exactly when the topic has at most the allowed words, at most the allowed wildcard words, and, if a length is set, at most that length and no line terminator. |
| Pattern.PatternText | lib/pattern.js:6-23 | The string the templates assemble is that pattern, written out. |
| PatternReader.PatternIsRead | lib/pattern.js:6-23 | Read by the grammar of regular expressions, that string is the pattern whose meaning is proved. |
| PatternReader.ShowThenRead | lib/pattern.js:6-23 | Any syntax in the shape of the grammar is read back from what it is written as. |
| Pattern.SeparatedCounts | lib/pattern.js:10-13 | A gap followed by at most n marks with gaps spans a text exactly when the text has at most n marked positions, given that gaps cover whatever is unmarked. |
| Pattern.WildcardsCountWords | lib/pattern.js:11-13 | Positions where the wildcard stands between separators or ends, as the lookarounds see it, are as many as the words that are the wildcard. |
| Pattern.SepsCountWords | lib/pattern.js:9-10 | Separators are one fewer than words. |
| Lifecycle.IndexesExact | lib/server.js:423-587 | In every reachable state `_connections` holds exactly the records of live connections, each under its own URI, with no empty set; `_connids` holds exactly the live connections; both are empty once all have closed. |
| Lifecycle.StaleConnectionsTold | lib/server.js:196-213 | In every reachable state with no notification outstanding, a live connection that passed the check of a token whose revision is no longer current has been told to destroy. |
| Lifecycle.ClosedOnce | lib/server.js:1052-1060 | 'close' is emitted at most once, exactly when the transports are closed and no connection lives, and then every callback given to `close` has been called exactly once. |
| Lifecycle.Closer | lib/server.js:1043-1093 | After closing starts no step moves the end away, and each step that transports, connections, users or the keystore owe brings it closer. |
| Lifecycle.SomethingOwed | lib/server.js:1062-1100 | While a closing server has not closed, some owed step can be taken. |
| Lifecycle.ShutdownEnds | lib/server.js:1017-1120 | So closing ends after a bounded number of owed steps, in every interleaving; once transports are being closed every connection has been told to go. |
| Lifecycle.Additions | lib/server.js:423-587 | Exactly which connection a step adds (a new one not yet lost, only before closing) and exactly which record (that of the handshake it takes of a connection that has not closed: its first on arrival, the next when the key of the one before is found current). |
| Lifecycle.RecordAddedWhileClosing | lib/server.js:530-605 | A reachable state in which, after closing started, the second handshake of a connection adds its record to `_connections`. |
| LifecycleSteps.OnlyWithReason | lib/server.js:196-213 | For every step and connection: it is told to go exactly when it is open and destroyed itself, has a record of another revision at a notification, gets an answer with another revision, or the shutdown goes on; it closes exactly when it is lost or told and reports at once; all others stay open and keep their records. |
| LifecycleSteps.NewConnection | lib/server.js:391-439 | A step accepts a connection exactly before closing, open unless it is lost already. |
| LifecycleSteps.ErrorStops | lib/server.js:1078-1101 | An error of the authorizer or of the transports closes, tells and emits nothing, and calls just the callback in hand. |
| LifecycleSteps.CallsWhen | lib/server.js:1052-1060 | Callbacks are called only with an error or once the server is closed: then those waiting for 'close' in their order, and last the one in hand. |
| LifecycleSteps.NoneCalledEarly | lib/server.js:1127-1149 | Over every run without errors no callback is called before the server is closed. |
| LifecycleSteps.StagesOfRun | lib/server.js:1027-1100 | Over every run: connections are told to go, and the server may close, exactly once the authorizer, or the transports, have closed without an error or the user has gone on after one. |
| LifecycleSteps.ClosedExactly | lib/server.js:1052-1084 | From a new server, 'close' has been emitted exactly when the transports have closed in that sense and no connection lives. |
| Lifecycle.StepKeepsIndexed | lib/server.js:459-605 | Every step keeps the two indexes the exact inverse of the connections' records. |
| Lifecycle.StepKeepsRevised | lib/server.js:563-604 | Every step keeps: a checked connection has the current revision or a notification of the change is still outstanding; this rests on registering before asking for the key. |
| Lifecycle.StepKeepsShutOk | lib/server.js:1017-1149 | Every step keeps the invariant of the shutdown: flags, the one 'empty' listener, and the callbacks still owed. |
| Lifecycle.InitialInv | lib/server.js:163-170 | A new server satisfies all three invariants. |
| CentroServerModule.CentroServer.TransportConnected | lib/server.js:391-439 | A connection is refused while closing, and otherwise entered in `_connids`; if `onclose` reports it lost at once it is taken out again, and if not its first handshake is taken in the same turn. |
| CentroServerModule.CentroServer.ConnClosed | lib/server.js:459-526 | Closing a connection takes exactly its records and its id out, and reports when none is left. |
| CentroServerModule.CentroServer.RemoveRecords | lib/server.js:463-484 | The loop over the records removes them all and drops sets it empties; the branch for an unknown URI is dead. |
| CentroServerModule.CentroServer.EmitEmpty | lib/server.js:522-525 | 'empty' runs the check once, if it is listened to. |
| CentroServerModule.CentroServer.DoCheck | lib/server.js:1052-1060 | The check closes the server and calls everyone back exactly when the transports are closed and no connection is left. |
| CentroServerModule.CentroServer.Dstroy | lib/server.js:403-418 | A connection is told at most once; if it closes at once, its records go. |
| CentroServerModule.CentroServer.ProcessHandshake | lib/server.js:530-605 | A record is entered before its key is asked for. |
| CentroServerModule.CentroServer.GotPubKey | lib/server.js:589-619 | A revision other than the current one, or an error, ends the handshakes and destroys the connection; otherwise the next handshake is taken in the same turn. |
| CentroServerModule.CentroServer.Visit | lib/server.js:204-211 | One turn of the loop over a set that destroying may shrink. |
| CentroServerModule.CentroServer.Change | lib/server.js:196-213 | The loop tells exactly the open connections that have a record of another revision, whichever close during it, and leaves all others open. |
| CentroServerModule.CentroServer.VisitAll | lib/server.js:204-211 | The same, for the loop itself. |
| CentroServerModule.CentroServer.Close | lib/server.js:1127-1149 | First call, call before ready, repeated call and call after closing. |
| CentroServerModule.CentroServer.TransportsStarted | lib/server.js:988-1000 | A close asked for before the start has finished begins once it has. |
| CentroServerModule.CentroServer.Cont | lib/server.js:1043-1093 | Listening for 'empty', then telling every connection, of which some close during the loop. |
| CentroServerModule.CentroServer.CloseTransports | lib/server.js:1027-1101 | Goes on after the authorizer closed, leaving no connection open, or changes no connection and hands an error to the user. |
| CentroServerModule.CentroServer.Cont2 | lib/server.js:1071-1076 | Marks the transports closed and checks. |
| CentroServerModule.CentroServer.TransportsDone | lib/server.js:1069-1084 | Goes on after the transports closed, or hands an error to the user and closes nothing. |
| CentroServerModule.CentroServer.Resume | lib/server.js:1071-1076 | What a user's continuation does. |
| Expiry.TokensExpireOnTime | lib/server.js:23-40 | In every run: no token expires before `exp`, none twice, no delay exceeds 2^31 - 1 ms, no closed connection has a pending timer, and the only pending timer of a record is the one stored on it. |
| Expiry.NoneOutlives | lib/server.js:25-40 | In every run in which no timer is overdue, a token of an open connection whose time has passed has expired, or is about to by a timer without a delay. |
| Expiry.BoundedRearming | lib/server.js:29-35 | If no timer is early, a record's timer fires at most once per started stretch of the longest delay, and once to expire. |
| Expiry.NothingExpiresAfterClose | lib/server.js:463-468 | After a connection has closed none of its tokens expires, whatever follows. |
| Expiry.OneRoundLess | lib/server.js:29-35 | Each re-check leaves one stretch fewer. |
| Expiry.StepKeepsInv | lib/server.js:441-468 | Every registration, timer, tick and disconnection keeps the timer on the record the only one. |
| Expiry.TokenTimers.DoSchedule | lib/server.js:25-40 | Arms one timer, for the time left or the longest delay, and stores its handle. |
| Expiry.TokenTimers.DoRegister | lib/server.js:569-574 | A new record of an open connection gets its timer, for the time left up to the longest delay, or at once. |
| Expiry.TokenTimers.DoFire | lib/server.js:449-457 | A timer expires its token, whose time has come and which never expired before, or arms the next one. |
| Expiry.TokenTimers.DoDisconnect | lib/server.js:459-468 | The loop leaves no timer of the connection and every timer of the others. |
| Authz.Verdict | lib/server.js:313-364 | Tokens are accepted exactly when none is too long, each is authorized and valid, no URI repeats, and a privileged transport has at most one. |
| Authz.EndsOnce | lib/server.js:271-283 | However often an attempt is reported on, it ends at most once; with asynchronous destroys exactly one of outcome and shutdown destroy has reached the transport once the attempt is no longer pending. |
| Authz.BothReach | lib/server.js:1029-1041 | Over every run, an attempt no longer pending has reached its transport exactly once, or both ways exactly when a shutdown of the run found it pending and not ended and its destroy reported at once. |
| Authz.OutcomeGiven | lib/server.js:271-311 | Over every run, the transport of an attempt gets an outcome exactly when that is the verdict on its tokens, or a rejection by its first report or a shutdown, given while the attempt was pending. |
| Authz.ReportRead | lib/server.js:285-311 | A report is refused exactly when it is an error or gives no tokens or too many, and otherwise the tokens to authorize are those it gives. |
| Authz.BothReachOne | lib/server.js:1029-1041 | A run after which the transport got both. |
| Authz.StepKeepsInv | lib/server.js:234-388 | Every step keeps an attempt pending until it has ended or been destroyed. |
| Authz.Authorizer.TransportAuthorize | lib/server.js:367-373 | A new attempt is pending. |
| Authz.Authorizer.DoCallback | lib/server.js:238-275 | That outcome reaches the transport if the attempt was still pending, and none otherwise; either way the attempt is settled. |
| Authz.Authorizer.DoGotTokens | lib/server.js:277-311 | Reports after the first are ignored; errors, missing, no and too many tokens end the attempt. |
| Authz.Authorizer.Authorized | lib/server.js:334-364 | The attempt is settled, and its transport gets the verdict: accepted with the tokens' URIs exactly when they are acceptable. |
| Authz.Authorizer.CloseTransports | lib/server.js:1027-1041 | The loop destroys every pending attempt once and leaves none pending, though a destroy may report at once. |
| Texts.SplitAt | lib/server.js:297-300 | `split` cuts at the first separator and goes on after it. |
| Texts.SplitParts | lib/server.js:297-300 | No part holds the separator. |
| Texts.SplitBetween | lib/server.js:297-300 | A separator anywhere cuts the parts before it from those after it. |
| Tokens.TokensRecovered | lib/client.js:25-35 | The server gets the client's list back exactly when no token is empty or contains a comma. |
| Tokens.RecoveredApart | lib/server.js:297-300 | For any texts: what stands on either side of a comma is read apart, and a text without a comma is one token unless it is empty. |
| ReadFrame.ServeOnBytes | lib/server.js:70-103 | For all cuts into chunks and events: a complete frame is called back exactly once with what follows it left on the stream; an oversized one fails first; otherwise nothing is called. |
| ReadFrame.NothingLost | lib/server.js:93-97 | Header, frame and what is left make up all the bytes. |
| ReadFrame.DecodeMeans | lib/server.js:70-101 | For any length and bytes: every length above the maximum is refused, and otherwise the frame is as many bytes as the length says, once they are there. |
| ReadFrame.LengthBound | lib/server.js:70-101 | A length of so many bytes is below 256 to that power. |
| ReadFrame.TokensDelivered | lib/client.js:412-429 | A client's frame of tokens followed by anything, cut anywhere, leaves exactly what followed and gives the server the client's list exactly when no token is empty or contains a comma. |
| Utf8.RoundTrip | lib/server.js:386 | Decoding encoded text gives it back, for all Unicode scalar values. |
| Utf8.OnlyEncodings | lib/server.js:386 | For any bytes, what the decoder does not replace is the encoding of the character it gives. |
| Utf8.TakeInPieces | test/example/browser/example_sse.js:57-78 | A stream decoder gives the same text however the bytes are cut, also inside a character. |
| ReadFrame.CallsPerEvent | lib/server.js:84-101 | The exact condition under which one readable event calls back more than once. |
| ReadFrame.FailsTwice | lib/server.js:84-101 | An input reported twice. |
| ReadFrame.FailsAgain | lib/server.js:84-101 | After an oversized frame every further chunk fails again. |
| ReadFrame.FrameReader.OnData | lib/server.js:75-101 | One chunk: more is needed, a frame with its rest pushed back, or an error. |
| ReadFrame.FrameReader.OnReadable | lib/server.js:70-103 | The loop over what can be read. |
| ReadFrame.FrameReader.OnEnd | lib/server.js:53-57 | An end before the frame is an error. |
| Json.RoundTrip | lib/server_transports/http.js:440-444 | Parsing what was written gives the object back, whatever its strings contain. |
| Json.StringifyOneLine | lib/server_transports/http.js:440-444 | Written JSON has no line end, so it fits the one data line of an event. |
| Sse.MessagesRecovered | test/example/browser/example_sse.js:55-78 | For any messages in any chunks, interleaved with each other and with comments, written before or after the last subscription, and any cut of the response's bytes: the page shows exactly the ended messages, in the order they ended, with their topics and exact bytes, if nothing was written before, and nothing otherwise. |
| Sse.EarlyMessageLost | lib/server_transports/http.js:509-532 | A message delivered before the last subscription, which the page does not show. |
| Sse.ChunksDoNotMatter | test/example/browser/example_sse.js:55-78 | Reading bytes in any chunks is reading the whole. |
| Sse.Demultiplexed | lib/server_transports/http.js:433-477 | After every run of writes the page's map holds exactly the open messages, each with the bytes so far. |
| Sse.FeedInPieces | test/example/browser/example_sse.js:57-78 | Reading text in fragments is reading the whole. |
| Sse.Latin1RoundTrip | lib/server_transports/http.js:462 | The bytes of a chunk can be had back from its text. |
| Sse.ResponseWriter.Subscribed | lib/server_transports/http.js:515-547 | The stream starts with a comment, exactly if nothing was written before (unless the head throws otherwise). |
| Sse.ResponseWriter.Handler | lib/server_transports/http.js:435-444 | A fresh id and a start event, whether or not there is a head yet. |
| Sse.ResponseWriter.Transform | lib/server_transports/http.js:456-464 | A data event for each chunk. |
| Sse.ResponseWriter.StreamEnd | lib/server_transports/http.js:446-454 | An end event. |
| Sse.ResponseWriter.StreamError | lib/server_transports/http.js:466-474 | A peer-error event, which ends no message. |
| Sse.ResponseWriter.KeepAlive | lib/server_transports/http.js:539-545 | A comment, which changes no message. |
| Sse.Subscriber.Dispatch | test/example/browser/example_sse.js:57-78 | The listeners for start, data and end. |
| Sse.Subscriber.Receive | test/example/browser/example_sse.js:55-78 | The incremental decoders with the listeners, over a chunk of bytes. |
| HttpResponse.AtMostOnce | lib/server_transports/http.js:231-301 | Over every sequence of calls, handler writes, close events and exceptions: at most one head, explicit or implicit, at most one end, at most one true result, and a keep-alive timer only after the 200 head of a subscription. |
| HttpResponse.SubscribedExactly | lib/server_transports/http.js:509-546 | A response still open and without a head of its own becomes an event stream exactly when no handler has written to it; otherwise it is ended. |
| HttpResponse.WriteBeforeHead | lib/server_transports/http.js:509-546 | A run in which a handler's write keeps the stream from starting. |
| HttpResponse.DoneEnds | lib/server_transports/http.js:231-301 | After every run that leaves the response open, a `done` that is to end it does so exactly when `done` wrote the head, no handler has written, or there is no header field to set. |
| HttpResponse.FailureLeavesOpen | lib/server_transports/http.js:515-520 | A message delivered, then a failing subscription: the response is open with an implicit head and no end. |
| HttpResponse.NeverEnded | lib/server_transports/http.js:256-300 | Over every further run of writes and of `done` calls with a header field to set, it stays so. |
| HttpResponse.StepKeepsInv | lib/server_transports/http.js:185-301 | Every call, write and event keeps the invariant behind these. |
| HttpResponse.KeepAliveStops | lib/server_transports/http.js:235-239 | The next `done` stops the timer; only a subscription's own head starts it; after a head or a close `done` fails. |
| HttpResponse.DoneGives | lib/server_transports/http.js:231-301 | `done` returns true exactly when nothing was sent and nothing throws; the head then has the code given, or 500 for none, and the body the text given or a general one. |
| HttpResponse.DoneElse | lib/server_transports/http.js:248-294 | What every other call ends the response with, if anything. |
| HttpResponse.DoneCloses | lib/server_transports/http.js:185-301 | Whatever throws, exactly when a call of `done` ends the response, and when the response counts as closed. |
| HttpResponse.TimerArmed | lib/server_transports/http.js:190-229 | The delayed destroy is armed just when a call with code 503 ends the response and a delay is set. |
| HttpResponse.LeftWhen | lib/server_transports/http.js:243-249 | Exactly when the client stream is destroyed, over all events. |
| HttpResponse.DoneKeepsInv | lib/server_transports/http.js:231-301 | One call of `done`, however it throws, keeps the invariant behind both. |
| HttpResponse.Request.DoDone | lib/server_transports/http.js:231-301 | True exactly when nothing was sent and nothing throws, and then with the code given (500 for none) as the only head and the body given; the keep-alive timer stopped; the delayed destroy armed only for an ended 503. |
| HttpResponse.Request.DoEndResponse | lib/server_transports/http.js:185-229 | Ends, and for 503 arms the delayed destroy. |
| HttpResponse.Request.DoSendHead | lib/server_transports/http.js:264-300 | Header fields, head, and the end unless only headers are wanted. |
| HttpResponse.Request.DoWriteHead | lib/server_transports/http.js:277-294 | The head, or the end if writing it throws, as it does once a head was sent. |
| HttpResponse.Request.OnWrite | lib/server_transports/http.js:440-444 | A handler's write sends a head if there is none. |
| HttpResponse.Request.OnClosed | lib/server_transports/http.js:311-316 | A close event, before and after a subscription listens to it too. |
| HttpResponse.Request.OnSubscribed | lib/server_transports/http.js:515-547 | The head of a subscription and its timer, exactly if nothing was sent before (unless the head throws otherwise). |
| ClientSubs.LastCallDecides | lib/client.js:176-327 | Over every run of calls on any clients: a handler is subscribed to a topic exactly when the last call that concerns that client, topic and handler subscribed it. |
| ClientSubs.TopicsExactly | lib/client.js:176-327 | For every call: a client has a topic exactly from the call or handshake that brings it to the call that takes its last handler or all of it. |
| ClientSubs.OneWrapper | lib/client.js:193-223 | In every reachable state a wrapper delivers exactly when its client has it subscribed; a client, topic and handler have at most one wrapper, the one the index leads to; no inner map within reach is empty, and no handler's map of clients. |
| ClientSubs.RemovedForGood | lib/client.js:209-218 | A removed wrapper never delivers again, whatever is subscribed to afterwards. |
| ClientSubs.SeriesEnds | lib/client.js:284-302 | Whatever calls run between the turns of unsubscribing from everything, there is at most one turn for each topic there was and one for each subscription made meanwhile. |
| ClientSubs.NothingLeftUnder | lib/client.js:284-302 | When that series is over, nothing under its prefix is subscribed to. |
| ClientSubs.SeriesSpares | lib/client.js:284-302 | Whatever calls run between its turns, the series touches no topic without the prefix and no other client. |
| ClientSubs.StepKeepsInv | lib/client.js:176-327 | Every call keeps the nested index and the clients' subscriptions in agreement. |
| CentroClientModule.CentroClients.OnHandshake | lib/client.js:159-173 | The loops over pre-subscriptions enter each topic, under the prefix of the token that lists it, with no handlers. |
| CentroClientModule.PresubscribedExactly | lib/client.js:159-173 | The topics entered are exactly those some token lists, each under that token's own prefix. |
| CentroClientModule.SubscribedExactly | lib/client.js:176-224 | After subscribing, a handler is subscribed to a topic exactly if it was before or is the one given. |
| CentroClientModule.UnsubscribedExactly | lib/client.js:227-327 | After each of the three forms of the call, exactly the subscriptions it is about are gone: one handler of a topic, the topic, or all under the token's prefix. |
| CentroClientModule.CentroClients.Subscribe | lib/client.js:176-224 | Refused if there is no such token; otherwise one wrapper is found or made, and just that subscription is added. |
| CentroClientModule.CentroClients.Unsub | lib/client.js:251-282 | Finds the wrapper and takes it out of the nested maps, dropping those it empties. |
| CentroClientModule.CentroClients.UnsubEach | lib/client.js:312-315 | The loop over a topic's handlers takes out all their wrappers. |
| CentroClientModule.CentroClients.UnsubscribeFromAll | lib/client.js:284-302 | The loop over the topics under a token's prefix, with no other call between its turns, removes exactly those. |
| CentroClientModule.CentroClients.UnsubscribeTurn | lib/client.js:284-302 | One turn of that series, whatever ran since the one before: the step the theorems on the series are about. |
| CentroClientModule.CentroClients.Unsubscribe | lib/client.js:227-327 | Takes away exactly the subscriptions of one handler of a topic, of the topic, or of everything under a token's prefix; refused if there is no such token. |
| CentroClientModule.CentroClients.Deliver | lib/client.js:209-218 | A wrapper calls its handler exactly while it is subscribed, with the topic stripped of the prefix it was subscribed under and contracted. |
| TopicRewrite.RoundTrip | lib/client.js:154-157 | Any topic expanded, prefixed, stripped and contracted is what it was exactly when no occurrence of the id begins in what stands between the placeholders. |
| TopicRewrite.WordRoundTrip | lib/client.js:154-157 | With the placeholder only as whole words, that is when no other word has the id in it. |
| TopicRewrite.ReadTooEarly | lib/client.js:215 | A topic for which it is not, with any id of letters `a` only. |
| Texts.ContainsSomewhere | lib/client.js:154-157 | A word has the id in it exactly when the id occurs at some position of the word. |
| TopicRewrite.ReplaceScans | lib/client.js:154-157 | Splitting and joining is one scan that replaces each occurrence it meets. |
| Isolation.Isolated | lib/server.js:544-551 | Between connections that are not privileged, a message published by or for one reaches another only under the hash of an issuer both have tokens of. |
| Isolation.AckStaysUnder | lib/server.js:733-763 | A message is acknowledged exactly when its topic is under the hash of a token with an acknowledgment prefix, and then under that hash, with the prefix of the last such token before the rest of the topic. |
| Isolation.AllowedOwned | lib/server.js:627-642 | Whatever access control lets a connection use is under one of its issuers' hashes. |
| Isolation.HeldOwned | lib/server.js:703-722 | So is every pattern it may subscribe to or is subscribed to by its tokens. |
| Isolation.SomeWords | README.adoc:157-163 | The wildcard `#` stands for any number of words. |
| Access.TopicsListed | lib/server.js:627-642 | The topics of a claim are exactly those some token lists, under its own issuer's hash, or under nothing for a privileged transport. |
| Access.AccessRules | lib/server.js:655-672 | A topic may be used exactly when some token's allowed pattern matches it and no token's disallowed one does; blocked topics and pre-subscriptions likewise token by token. |
| Access.MatchMeans | README.adoc:157-163 | A pattern without `#` matches topics of as many words that fit one by one, `*` fitting any; with it, any words stand between what fits before and what matches after. |
| Access.AckPrivileged | lib/server.js:733-763 | For a privileged transport every message is acknowledged by the last token with an acknowledgment prefix, unless there is none. |
| Session.Handshakes.ProcessHandshake | lib/server.js:537-561 | Fills the maps from issuer hash to acknowledgment prefix and presence. |
| Session.Handshakes.Presubscribe | lib/server.js:703-722 | The loops subscribe to exactly the topics the tokens list. |
| Session.Handshakes.OnAck | lib/server.js:733-763 | Publishes the acknowledgment, or nothing for an unknown prefix. |
| Session.Handshakes.Announce | lib/server.js:807-836 | One message per presence entry: exactly those of the last token of each issuer that has one, for connecting or for disconnecting, under the issuer's hash. |
| Pipeline.DefaultGetsComposition | lib/server.js:1162-1213 | The default handler is called with exactly the left-to-right composition of the handlers, which also see the event's own arguments (`orig_arguments`). |
| Pipeline.ShortCircuit | lib/server.js:1166-1190 | Handlers that call `next` at most once run in order, each on what the one before passed on, up to the first that does not; the default runs exactly when all do. |
| Pipeline.Emitter.Pipeline | lib/server.js:1196-1212 | Adds a handler for its event and leaves the other events alone. |
| Pipeline.Emitter.Emit | lib/server.js:1205-1208 | One event runs its own handlers only. |
| InMem.FirstInFirstOut | lib/server_transports/in-mem.js:64-90 | In each direction bytes read, buffered and waiting are the bytes accepted, in order, for paused and flowing readers and reads that raise the high-water mark; write callbacks run in order, each at most once; the end comes last. |
| InMem.StoredCallback | lib/server_transports/in-mem.js:70-90 | A stored callback is never overwritten, leaves exactly at the read that drains the buffer below the high-water mark or finds it empty, and is then the next to run. |
| InMem.BackPressure | lib/server_transports/in-mem.js:80-90 | A write handed on is called back on the next tick exactly if the reader's buffer is then empty or below the high-water mark, and otherwise its callback is kept. |
| InMem.WaitsItsTurn | lib/server_transports/in-mem.js:80-90 | A write made while another is in progress changes nothing but the queue. |
| InMem.ReaderIsTold | lib/server_transports/in-mem.js:70-78 | A reader that has emptied the buffer has asked for more and will be told of it. |
| InMem.AnyRunKeepsInv | lib/server_transports/in-mem.js:97-114 | From an open pair, over every run of destroys, tasks and timers, neither end emits 'close' twice. |
| InMem.MutualDestroyEnds | lib/server_transports/in-mem.js:46-58 | The two ends' destroys end with both destroyed and one 'close' from each. |
| InMem.DestroyedWhen | lib/server_transports/in-mem.js:46-58 | Exactly when each end is destroyed; a wait that is set is waited for. |
| InMem.TasksEmit | lib/server_transports/in-mem.js:97-114 | Over every run each task emits one 'close'. |
| InMem.StepKeepsInv | lib/server_transports/in-mem.js:120-146 | Every write, read, tick, end and 'readable' keeps one callback at most on its way, the byte balance, and that more is wanted early only of a buffer not over the mark. |
| InMem.Duplex.DoWrite | lib/server_transports/in-mem.js:80-90 | Pushes to the peer, and leaves the callback there if that leaves no room. |
| InMem.Duplex.PushTo | lib/server_transports/in-mem.js:82 | A flowing reader with nothing buffered gets the chunk at once. |
| InMem.Duplex.ReadBytes | lib/server_transports/in-mem.js:70-78 | Takes bytes and releases a stored callback. |
| InMem.PairOfEnds.LeftDestroy | lib/server_transports/in-mem.js:97-114 | Destroying the left end, whose 'close' destroys the right. |
| InMem.PairOfEnds.RightDestroy | lib/server_transports/in-mem.js:46-58 | Destroying the right end, at once or after the wait. |
| LimitActive.CountIsUnanswered | lib/server_extensions/limit_active.js:69-99 | Over every interleaving, however often callbacks repeat, the count is the admitted requests not yet answered and lies between 0 and the maximum. |
| LimitActive.AnsweredOnce | lib/server_extensions/limit_active.js:74-96 | Over every run a refused request is answered exactly once, and an admitted one as often as its callback is called. |
| LimitActive.ActiveWithinMaximum | lib/server_extensions/limit_active.js:112-129 | The connections neither closed nor cancelled never exceed the maximum. |
| LimitActive.AllSeen | lib/server_extensions/limit_active.js:112-129 | A run sees every connection that starts in it. |
| LimitActive.PublicationLimit.PublishRequested | lib/server_extensions/limit_active.js:74-83 | Admits exactly while fewer than the maximum are unanswered. |
| LimitActive.PublicationLimit.Callback | lib/server_extensions/limit_active.js:84-96 | Only the first call takes one off the count. |
| LimitActive.ConnectionLimit.DoAuthzStart | lib/server_extensions/limit_active.js:115-128 | Counts a connection, which may already have closed, and cancels exactly when more than the maximum have not closed. |
| LimitActive.ConnectionLimit.OnClose | lib/server_extensions/limit_active.js:119-122 | Takes one off the count and the connection out of the active ones. |

## Assumptions

* The hash of an issuer is a non-empty word without the separator, is not a wildcard, and differs for different issuers;
  connection ids are fresh. Randomness and hashing are otherwise abstract.
* Access control allows a topic that matches an allowed pattern and no disallowed one; `*` matches one word. Its further
  limits only take permissions away, so `Isolation.Isolated` holds with them too.
* mqlobber keeps a set of handlers for each topic and lets the topic go when its last handler is removed.
* The keystore notifies every change of a revision, some time after it.
* frame-stream's decoder keeps all bytes until a frame is complete, also after an error.
* Node.js sends an implicit head with the first of a body, and `writeHead` and `setHeader` throw once a head was sent; an
  event source reads only responses whose head says that they are event streams.
* Stream callbacks run once, and a connection's close is reported once, as Node.js streams and the transports promise.
* Several chunks in one readable event come from a stream whose `_read` pushes before it returns: a plain buffered
  stream's `read()` without a size returns all that is buffered as one chunk.
* A user calls each continuation of a failed shutdown once: a second call of `cont2` would emit 'close' again.

## Left out

- Sockets, TLS, HTTP/2, CORS, Primus and session handling: plumbing of libraries that are not part of this model.
- JWT verification and schema validation other than topic patterns: the outcomes are inputs of `Authz.Verdict`.
- Failed starts: the shutdown claims are for servers whose start succeeded, since `_close` then runs without `_closing`.
- `limit_active_subscriptions` and the other extensions: the first counts with a number from a library that is not part of this model, and the others are thin.
- Pattern.PatternMeansLimits: separator and wildcard are different single UTF-16 code units and there is at least one word, as the generated quantifier needs.
- Json.RoundTrip: flat objects of strings, booleans and non-negative integers, which is what the message information is made of; characters are Unicode scalar values, so escapes of lone surrogates are refused.
- Sse.MessagesRecovered: the message information has no field named `id`, which would replace the number of the message; neither side closes the response meanwhile.
- HttpResponse.SubscribedExactly: nothing else throws; what other exceptions of `writeHead`, `setHeader` and `end` lead to is in `HttpResponse.DoneGives` and `HttpResponse.DoneCloses`.
- CentroServerModule.CentroServer.TransportConnected: the variables a closure keeps for each connection are values in a map of the server object.
- TopicRewrite.RoundTrip: the id is not empty, which the server's ids never are.
- CentroClientModule.CentroClients.UnsubscribeFromAll: the method takes its turns one after the other; calls between them are in `UnsubscribeTurn` and `ClientSubs.SeriesEnds`.
- CentroClientModule.CentroClients.Unsubscribe: what mqlobber does with a handler that was never subscribed is only that an empty topic goes.
- Isolation.Isolated: block rules, sizes and times to live only withhold messages; of these only the block rules are modelled.
- Pipeline.Emitter.Emit: handlers that depend on more than their arguments and the event's, and handlers added while an event is running.
- InMem.MutualDestroyEnds: errors emitted on one end and passed to the other.
- LimitActive.ActiveWithinMaximum: each close handler runs at most once.
- Contents and times to live of presence messages, and `Content-Type` and other header values.
