# A verified model of librtsp

This project models the parts of librtsp that are hardest to get right and proves, for all inputs and all runs, what they
promise.

- **The message stream** (`Terminator`, `Stream`, `StreamTheorems`, `StreamLengths`, `MessageStream`). Bytes arrive in
  arbitrary chunks; the incremental parser finds the end of a header, keeps half-read messages whose header bytes its own
  tokeniser has overwritten, and mixes text messages with interleaved binary packets. Proved: no byte is lost or used twice, the
  loop ends, and a stream of well-formed frames is delivered frame by frame exactly when no chunk ends at one kind of place.
- **The server** (`Lists`, `ServerState`, `ServerInvariant`, `ServerRuns`, `ServerReplies`, `ServerRequests`,
  `ServerTeardowns`, `ServerOperations`, `ServerCalls`, `RtspServer`). A request fans out to the medias of a session, the application answers inside or after its
  callback, and timeouts, disconnections, forced teardowns and idle removals interleave. Events are steps of a state machine;
  addresses are ids; `log` records the responses sent. Proved: the structure of the lists in every run, exactly when a request
  is answered at most once, one response at the last answer, what a TEARDOWN removes, and that the operation in progress of a
  session ends with its request.
- **The client** (`Channels`, `ClientState`, `ClientRuns`, `ClientOnce`, `ClientChannels`, `ClientLeaks`, `ClientFailures`,
  `ClientOperations`, `ClientCalls`, `RtspClient`). One pending request shares its slot with keep-alives; sessions own interleaved channels of a table of 256.
  Proved: at most one completion always, exactly one where no keep-alive is outstanding, one owner per channel over all runs,
  exactly when a channel stays marked without an owner, when the channel search ends, what SETUP and TEARDOWN leave of a session,
  and when repeated failures make the client reconnect or give a session up.
- **Printers and parsers that undo each other** (`Text`, `Tokens`, `Url`, `UrlTheorems`, `UrlForms`, `UrlBuffer`, `Base64`,
  `Base64Words`, `Transport`, `TransportTheorems`, `TransportFields`, `Authorization`, `AuthorizationFields`, `RequestHeader`,
  `RequestTheorems`, `RequestFields`, `RequestDigests`, `RequestFrames`). Proved: normal forms of URLs, round trips of Base64, transport lists, Digest and request headers, and,
  joining this with the stream, that written requests arrive whatever the chunks; and, word by word, what the names of the
  protocol mean in what a peer sends and where the writers put them.

Each state machine is a function from state and event to state; the classes `RtspServer`, `RtspClient` and `MessageStream`
update their fields in place, loop over their lists and tables as the C code does, and are tied to those functions. What the
environment decides (whether a send succeeds, what the peer answers, the time, the ids drawn) comes with the event.

## What the code does that a reader may not expect

- A `$` packet of which only three bytes have arrived is handed to the text path (src/rtsp.c:3339). If its second and third
  byte are both LF or both CR, those three bytes are dropped as a malformed header.
- A negative Content-Length makes the 64-bit length sum wrap: the message is cut inside its own header, or waited for for ever.
- A TEARDOWN whose path contains a slash and matches no media tears down all medias (src/rtsp_server.c:759-771). One that
  selects nothing is refused but leaves the operation of the session in progress.
- The periodic timer sends its error, then calls the application back, and only then removes the request
  (src/rtsp_server.c:183-202). A reply made in that callback finds the request pending and sends a second response.
- A request that ends by that timeout leaves the operation of its session in progress, so that forced teardowns are refused from
  then on (src/rtsp_server.c:179-204); one that is answered ends it.
- Several error answers inside one callback each send a response; so does a RECORD over several medias on a server without
  that callback. `rtsp_server_reply_to_record` reads through the request pointer before it checks it.
- The channel search uses an 8-bit index that wraps from 254 to 0 (src/rtsp_client.c:2359), so it never ends when no
  even channel and its successor are both free. The check for two unused channels excludes this only if channels are always
  taken in aligned pairs.
- A request of the user that overwrites a pending keep-alive leaves the keep-alive flag of the session set; another request can
  then overwrite the first, which is never completed. A request that cannot be sent has replaced the pending header all the
  same, so its user data can be reported later although the call returned an error. A SETUP of this kind keeps its channels
  marked used, and the channels of the pending SETUP it replaced stay marked too.
- A SETUP over TCP that is answered without TCP, or whose media cannot be added, keeps its channels marked used though
  nothing owns them (src/rtsp_client.c:749-797).
- A TEARDOWN of the user is completed without its callback when its URL names neither a media nor the session, or when the reply
  names another session that the library itself is tearing down (src/rtsp_client.c:898).
- A TEARDOWN from the server that names an unknown media removes the whole session (src/rtsp_client.c:1494-1501).
- `rtsp_authorization_header_write` returns success for a Digest without a response and leaves its line open (src/rtsp.c:1947-1951).
- The checks at the end of `rtsp_range_header_read` are made only when the stop time is absent (src/rtsp.c:892-900), so
  the reader accepts ranges the writer refuses.

## Model

| member | source | states |
|---|---|---|
| `Terminator.FindSubstring` | src/rtsp.c:308-335 | the search returns a position exactly when it is the first occurrence of the pattern and no NUL comes before it |
| `Terminator.FindHeaderEnd` | src/rtsp.c:338-368 | four searches in priority order over the whole buffer; tied to `FindDoubleNewline` |
| `Terminator.SecondSearchAgrees` | src/rtsp.c:2524-2533 | the header reader searches again inside the header it was given and finds the same terminator at the same place |
| `Terminator.TerminatorStable` | src/rtsp.c:338-368 | a header closed by CR LF CR LF is found at the same place whatever bytes follow |
| `Stream.BuildThenParse` | src/rtsp.c:3332-3430 | a built `$` packet is parsed back with its channel and payload whatever follows, and no proper prefix of it is taken for a packet |
| `Stream.TotalLengthExactIff` | src/rtsp.c:3519-3521 | the 64-bit sum of header length and Content-Length is the length of the message exactly when Content-Length is not negative; otherwise the cut falls inside the header or never happens |
| `Stream.NextExplained` | src/rtsp.c:3442-3546 | one parser call on a half-read message (header bytes overwritten by the tokeniser) delivers what the original bytes say: the header parsed from them and exactly the body bytes received |
| `Stream.NextProgress` | src/rtsp.c:3442-3546 | with a reader that refuses negative lengths, every delivered or skipped message consumes at least 2 bytes and no more than the buffer holds; waiting keeps a well-formed parser state |
| `Stream.DrainExplained` | src/rtsp_client.c:1739-1770 | the receive loop splits what was received into one piece of bytes per delivered or skipped message, plus a rest that is still buffered |
| `StreamTheorems.BytesConserved` | src/rtsp_server.c:1520-1551 | over any chunks, every received byte is in exactly one delivered message, one skipped header, or the buffer |
| `StreamTheorems.ByteCount` | src/rtsp_client.c:1735-1770 | the lengths of all messages and skips plus the buffer add up to what was received |
| `StreamTheorems.CompleteFramesDelivered` | src/rtsp.c:3433-3546 | after any safely cut prefix of a stream of well-formed frames, exactly the complete frames have been delivered, in order |
| `StreamTheorems.FragmentationIndependence` | src/rtsp.c:3433-3546 | a stream of well-formed frames is delivered frame by frame and leaves the parser idle if and only if no chunk ends after exactly three bytes of a `$` packet whose last two are both LF or both CR |
| `StreamTheorems.SkipsCost` | src/rtsp.c:3514-3518 | every skipped header costs at least two bytes that no delivered message accounts for |
| `StreamTheorems.OtherTerminatorsUnstable` | src/rtsp.c:338-368 | a header closed by two equal newlines is swallowed by a longer one as soon as CR LF CR LF follows, so what is found depends on where chunks end |
| `StreamLengths.SameCallIff` | src/rtsp.c:3481-3521 | with the 64-bit sum of the code and any length `atoi` may give, one parser call does the same as with a reader that refuses negative lengths if and only if it does not meet one |
| `StreamLengths.NegativeLength` | src/rtsp.c:3519-3521 | a negative length down to that of the header delivers a message cut inside its own header; below it the message is never complete, whatever arrives |
| `StreamLengths.ProgressIff` | src/rtsp.c:3519-3541 | a delivery consumes at least two bytes unless the length is so negative that header and length together come to less than two |
| `StreamLengths.ReceiveAgrees` | src/rtsp_client.c:1735-1770 | over any run in which no header with a negative length is read, the receive loop as it is does what the loop with the stricter reader does, so that all results about that one hold of it |
| `StreamLengths.FramesDelivered` | src/rtsp.c:3433-3546 | with the readers as they are, a stream of well-formed frames that is cut safely is delivered frame by frame and leaves the parser idle |
| `MessageStream.MessageStream.GetNextMessage` | src/rtsp.c:3442-3546 | the parser with its context updated in place and its lengths added up in 64 bits, tied to `NextWord` for the readers as they are |
| `MessageStream.MessageStream.RemoveFirstBytes` | src/rtsp.c:3276-3309 | cuts the count from the front, or everything when more is asked than there is |
| `MessageStream.MessageStream.Receive` | src/rtsp_client.c:1704-1771 | append, deliver until incomplete, cut and stop at a malformed header; unless a negative length is met, it delivers what the loop with the stricter reader delivers and nothing of old buffer and chunk is lost |
| `RtspServer.RtspServer.PendingRequestAdd` | src/rtsp_server_request.c:34-61 | a request enters at the end of the pending list and the counter follows |
| `RtspServer.RtspServer.PendingRequestRemove` | src/rtsp_server_request.c:64-106 | unlinks the request and decrements the counter, or -ENOENT when it is not pending |
| `RtspServer.RtspServer.SessionFind` | src/rtsp_server_session.c:195-217 | the first session whose id agrees on the first 8 characters |
| `RtspServer.RtspServer.SessionAdd` | src/rtsp_server_session.c:34-117 | draws ids until one agrees with no session on its first 8 characters, and arms the timer of the new session |
| `RtspServer.RtspServer.SessionRemove` | src/rtsp_server_session.c:120-173 | unlinks the session, its timer and its queued idle removal |
| `RtspServer.RtspServer.SessionMediaAdd` | src/rtsp_server_session.c:220-250 | adds a media unless the session already has its path |
| `RtspServer.RtspServer.SessionMediaRemove` | src/rtsp_server_session.c:253-290 | unlinks one media and decrements the counter |
| `RtspServer.RtspServer.RespondWithError` | src/rtsp_server.c:81-158 | sends an error response only to a request whose connection is up |
| `RtspServer.RtspServer.RemoveTornDown` | src/rtsp_server.c:2752-2775 | unlinks the marked medias one by one, and the session when none is left |
| `RtspServer.RtspServer.FinishReply` | src/rtsp_server.c:1345-1370 | a settled request leaves the pending list at once, or after its callbacks |
| `RtspServer.RtspServer.ReplyToSingle` | src/rtsp_server.c:1811-1956 | the answer to DESCRIBE and ANNOUNCE, with its error exits |
| `RtspServer.RtspServer.ReplyToSetup` | src/rtsp_server.c:1959-2158 | the answer to SETUP; a failed one of a session's only media queues the idle removal |
| `RtspServer.RtspServer.ReplyToMedia` | src/rtsp_server.c:2161-2389 | the answer of one media of PLAY, PAUSE, RECORD or TEARDOWN: checks in order, first range kept, answered medias counted, response at the last one |
| `RtspServer.RtspServer.AcceptAnswer` | src/rtsp_server.c:2300-2389 | marks the media as answered and responds when all are |
| `RtspServer.RtspServer.HandleAggregate` | src/rtsp_server.c:539-613 | PLAY, PAUSE and RECORD fan out to all medias of the session |
| `RtspServer.RtspServer.HandleTeardown` | src/rtsp_server.c:692-826 | marks the selected medias, fans out to them, or fails when there is none |
| `RtspServer.RtspServer.HandleSetup` | src/rtsp_server.c:428-536 | a new or known session and a new media in it |
| `RtspServer.RtspServer.HandlerReturns` | src/rtsp_server.c:586-612 | after the callbacks: the first-reply flag is set again and a settled request is removed |
| `RtspServer.RtspServer.WalkOn` | src/rtsp_server.c:174-204 | the timer's walk up to the next expired request: its error is sent and the callback runs while it is still pending |
| `RtspServer.RtspServer.Returns` | src/rtsp_server.c:192-202 | the return of the running callback; after that of a timeout the request is removed and the walk goes on |
| `RtspServer.RtspServer.TimerExpired` | src/rtsp_server.c:161-205 | the periodic timer walks over the requests pending at its start |
| `ServerRuns.SweepStopsAtFirst` | src/rtsp_server.c:174-204 | the walk passes over nothing but requests that are gone or not expired, and stops at the first expired one or at the end |
| `RtspServer.RtspServer.ConnectionLost` | src/rtsp_server.c:296-303 | the requests of a lost connection stay pending without it |
| `RtspServer.RtspServer.TeardownByForce` | src/rtsp_server.c:2866-2958 | only on an idle session; one media, or the whole session |
| `ServerRuns.StepKeeps` | src/rtsp_server_session.c:64-97 | every event keeps the structure (counters equal list lengths, session ids differ within 8 characters, paths differ within a session, timers and idle removals refer to sessions in the list), and keeps each request answered at most once if and only if it is not a reply that sends to a settled request that has its response |
| `ServerRuns.StructureInEveryRun` | src/rtsp_server_session.c:145-172 | the structure holds in every reachable state |
| `ServerRuns.AtMostOneResponse` | src/rtsp_server_request.c:64-128 | over any run of requests, replies, timeouts with their callbacks, disconnections and removals, every request gets at most one response if and only if no reply sends to a request that has its response and is still pending only because its own callback, or that of its timeout, is running |
| `ServerRuns.ReplySendsExactly` | src/rtsp_server.c:1959-2389 | which replies send: connection up and session known, then an error exit whose error goes out, or the last answer counted and sent; every other reply sends nothing |
| `ServerRuns.SettledReplySendsAgain` | src/rtsp_server.c:2203-2216 | any reply that sends, made to a request settled in its own callback, adds a response and leaves it there to be answered once more |
| `ServerRuns.TimeoutAnsweredTwice` | src/rtsp_server.c:183-202 | the input: a DESCRIBE that expires and is answered from the timeout callback gets both the error and the answer |
| `ServerRuns.RestrainedIsCareful` | src/rtsp_server.c:183-202 | the shorter rule is enough: send no reply to a request that is settled or timing out |
| `ServerRuns.LateReply` | src/rtsp_server.c:1959-1990 | a reply after the request left the list sends nothing and returns -ENOENT, except for RECORD, which reads through the null pointer before its check |
| `ServerReplies.UnrelatedUntouched` | src/rtsp_server.c:1497-1552 | events of other requests and sessions change neither a request, its responses, nor the range and scale of its session |
| `ServerReplies.NothingBeforeTheLast` | src/rtsp_server.c:2300-2340 | while a media has not answered, no response is sent and the request stays pending |
| `ServerReplies.OneResponseAtTheLast` | src/rtsp_server.c:1181-1370 | answers to all medias in any order, inside or outside the callback and among any unrelated events, give exactly one response, at the last answer, and the request leaves the list once |
| `ServerReplies.EachErrorResponds` | src/rtsp_server.c:1095-1178 | n error answers inside the callback send n responses; so does a RECORD over n medias on a server without that callback |
| `ServerRequests.AggregateGathers` | src/rtsp_server.c:539-613 | an accepted PLAY, PAUSE or RECORD waits for one answer of each media of the session |
| `ServerRequests.AggregateAnsweredOnce` | src/rtsp_server.c:2161-2389 | from arrival to response: answered by all medias, the request got exactly one response and is no longer pending |
| `ServerRequests.SelectedCases` | src/rtsp_server.c:723-790 | a TEARDOWN selects the media with that path, else for a path without slash those below it, else (no media matches and the path has a slash) all of them |
| `ServerRequests.TeardownGathers` | src/rtsp_server.c:723-826 | exactly the selected medias get the mark, besides those marked before, and each is waited for |
| `ServerRequests.TeardownRemovesMarked` | src/rtsp_server.c:2752-2775 | when a TEARDOWN concludes, exactly the marked medias are gone and the session is gone if and only if none remains |
| `ServerRequests.RefusedTeardownBlocks` | src/rtsp_server.c:790-826 | a TEARDOWN that selects nothing is refused but leaves the operation in progress, so that forced teardowns return -EALREADY |
| `ServerTeardowns.UnrelatedKeepsMedias` | src/rtsp_server.c:2752-2775 | no unrelated event but another TEARDOWN of the session changes its known medias or their marks |
| `ServerTeardowns.TeardownAnsweredOnce` | src/rtsp_server.c:692-826 | from arrival to response: a TEARDOWN whose medias are all answered gets exactly one response, leaves the list, and of the medias known at its arrival exactly those neither selected nor marked before are left |
| `Channels.SearchEndsIff` | src/rtsp_client.c:2357-2367 | the search loop with its 8-bit index ends if and only if an even channel and its successor are both free; otherwise it goes round for ever |
| `Channels.FirstFree` | src/rtsp_client.c:2357-2367 | the lowest free pair, none being free below it |
| `Channels.Allocate` | src/rtsp_client.c:2340-2371 | the pair handed out is valid and was free; only a requested pair can be refused, when one of its channels is in use |
| `Channels.AlignedSearchEnds` | src/rtsp_client.c:2488-2503 | on a table of aligned pairs, two unused channels are exactly enough for the search to end |
| `Channels.OddChannelsNeverEnd` | src/rtsp_client.c:2488-2503 | without alignment they are not: with all odd channels in use the check passes and the search never ends |
| `Channels.CountUnused` | src/rtsp_client.c:678-687 | counts the unused channels of the table |
| `Channels.SetPairUsed` | src/rtsp_client_priv.h:203-213 | writes the two entries of a valid pair and nothing else |
| `Channels.FindFree` | src/rtsp_client.c:2357-2367 | the loop finds the lowest even-aligned free pair |
| `Channels.AllocateChannels` | src/rtsp_client.c:2340-2371 | marks just the two channels handed out, or none |
| `ClientRuns.StepNoMore` | src/rtsp_client.c:979-1347 | no event adds to the completions that happened and the one still to come of an issued request |
| `ClientRuns.CompletedAtMostOnce` | src/rtsp_client.c:979-1057 | over every run, whatever keep-alives do, an issued request is completed at most once |
| `ClientOnce.OthersRefused` | src/rtsp_client.c:2193-2199 | while a request is pending and no keep-alive is outstanding, every other request of the user is refused and leaves no trace, with -EBUSY if and only if the connection is up, the ports are usable and the method is OPTIONS, allowed, or nothing is known of what is allowed |
| `ClientOnce.KeepAliveQuiet` | src/rtsp_client.c:527-536 | while a request is pending no keep-alive is sent |
| `ClientOnce.AcceptedIsHeld` | src/rtsp_client.c:2173-2216 | a request accepted while nothing is outstanding takes the slot with its own method, sequence number and user data, and its timer is armed when it has a timeout; a TEARDOWN also with its own session and without the marks of a TEARDOWN by the library |
| `ClientOnce.HeldStep` | src/rtsp_client.c:1654-1701 | each event leaves a held request alone, sending and completing nothing, or completes it |
| `ClientOnce.DeliversIff` | src/rtsp_client.c:854-945 | the completion of a held request runs the callback if and only if it is not a TEARDOWN that names neither a media nor the session of the reply, nor one whose reply names another session that the library is tearing down (src/rtsp_client.c:898) |
| `ClientOnce.CompletedExactlyOnce` | src/rtsp_client.c:979-1347 | over any run a held request stays held, or the first completing event (response with its number, timeout, cancel, disconnection) completes it with its method and user data and leaves the slot free: exactly once, or never for the two kinds of TEARDOWN of `DeliversIff` |
| `ClientOnce.OvertakenIffKeepAlive` | src/rtsp_client.c:376-396 | a pending request can be overtaken by another request of the user if and only if some session waits for a keep-alive |
| `ClientOnce.OvertakenIsLost` | src/rtsp_client.c:376-396 | the overtaken request is completed in no run |
| `ClientOnce.ReplacedIff` | src/rtsp_client.c:2201-2212 | a request of the user replaces the pending header exactly when it gets that far, sent or not; it takes the slot exactly when it is sent |
| `ClientOnce.RefusedYetCompleted` | src/rtsp_client.c:2201-2212 | a request that failed after it replaced the header, SETUP and TEARDOWN included: with a keep-alive pending, the next completing event, be it an answer, timeout, cancellation or disconnection, is taken for the end of the failed request and reported as that; otherwise nothing is reported |
| `ClientChannels.StepKeeps` | src/rtsp_client.c:912-924 | every event keeps one owner per channel, used marks for all owned channels, media counters and distinct paths, given an honest server |
| `ClientChannels.ChannelsExclusive` | src/rtsp_client.c:703-798 | over all runs from the start, every live media's channels are marked used and are disjoint from those of every other media and of the pending SETUP, if the server never answers with a channel owned by a live media |
| `ClientChannels.SharedIffDishonest` | src/rtsp_client.c:703-798 | for a SETUP answer that adds a media, the owners stay apart if and only if the answer names no owned channel |
| `ClientChannels.SearchAlwaysEnds` | src/rtsp_client.c:2340-2371 | over all runs in which user and server keep to aligned pairs, the channel search of every SETUP ends |
| `ClientChannels.SessionsConsistent` | src/rtsp_client_session.c:171-240 | in every such run ids differ, counters equal list lengths, paths differ, and a TEARDOWN of the whole session finds its target |
| `ClientChannels.UnsentSetupLeaks` | src/rtsp_client.c:2503-2521 | a SETUP over TCP that cannot be sent leaves its channels marked used though nobody holds them |
| `ClientLeaks.SetupCompletedAccounts` | src/rtsp_client.c:721-798 | completing a SETUP accounts for the channels it had asked for and for those it was given: none of them stays marked used without an owner |
| `ClientLeaks.SetupLosesUnlessAnswered` | src/rtsp_client.c:721-798 | where nothing was lost before, an honest answer leaves no channel without an owner if and only if it is an error, or over TCP without channels or with a media that can be added, or not over TCP to a request without channels |
| `ClientLeaks.StepNoLoss` | src/rtsp_client.c:912-924 | each event but the losing ones below loses no channel, whatever was lost before: failed requests, removals and teardowns from either side free what they held |
| `ClientLeaks.StepLosesIff` | src/rtsp_client.c:2487-2521 | where nothing was lost before, an event loses a channel if and only if it replaces the header of a pending SETUP that holds channels, or takes channels for a SETUP that then cannot be sent while the slot is free, or is an answer to a SETUP other than those of `SetupLosesUnlessAnswered` |
| `ClientLeaks.UsedExactlyByOwners` | src/rtsp_client.c:703-798 | over all runs from the start with an honest server, in every state a channel is marked used exactly when one media or the pending SETUP owns it, if and only if no event of the run is a losing one |
| `ClientFailures.RunCountsTimeouts` | src/rtsp_client.c:1319-1347 | over any run the count of failed requests is the number of timeouts in a row at the end of all completions |
| `ClientFailures.ReconnectsAtFifth` | src/rtsp_client.c:1319-1347 | after any run from the start, a connection that is up is set up again by an event if and only if it went down, or the pending request timed out and the four completions before it were timeouts as well |
| `ClientFailures.OfflineRemovedAtThird` | src/rtsp_client.c:490-566 | while the connection is not up, whatever the timers of other sessions, a session is removed exactly by its third failed keep-alive |
| `ClientFailures.ThirdUnansweredGivesUp` | src/rtsp_client.c:1255-1318 | on a connection that stays up, a keep-alive that is not answered is sent again and the session kept until the third timeout, at which the library tears the session down, or removes it when that cannot be sent |
| `RtspClient.RtspClient.SessionRemove` | src/rtsp_client_session.c:85-128 | frees the channels of all medias, then unlinks and reports the session |
| `RtspClient.RtspClient.RemoveAllSessions` | src/rtsp_client_session.c:131-143 | removes the sessions one by one |
| `RtspClient.RtspClient.MediaFind` | src/rtsp_client_session.c:243-264 | the first media with this path |
| `RtspClient.RtspClient.ClearPendingKeepAliveTimer` | src/rtsp_client.c:376-396 | clears the response timer when some session waits for a keep-alive, and says so |
| `RtspClient.RtspClient.SendRequest` | src/rtsp_client.c:310-374 | replaces header and user data in any case; only a sent request takes the slot and a sequence number |
| `RtspClient.RtspClient.RequestCall` | src/rtsp_client.c:2533-2603 | OPTIONS, DESCRIBE, ANNOUNCE, PLAY, PAUSE and RECORD |
| `RtspClient.RtspClient.SendTeardown` | src/rtsp_client.c:585-664 | TEARDOWN of a media or of the session, by the user or by the client itself |
| `RtspClient.RtspClient.SetupCall` | src/rtsp_client.c:2374-2530 | SETUP: port, session and channel checks in order, then the request |
| `RtspClient.RtspClient.KeepAliveCall` | src/rtsp_client.c:490-566 | counts failures while not connected and removes the session at the third; otherwise waits for the slot |
| `RtspClient.RtspClient.SetupRequestComplete` | src/rtsp_client.c:721-798 | frees the requested channels when others are returned or the SETUP failed, marks the returned ones, adds the media |
| `RtspClient.RtspClient.TeardownRequestComplete` | src/rtsp_client.c:854-945 | reports and removes the named media, or the session; says whether the session goes |
| `RtspClient.RtspClient.SettleRequest` | src/rtsp_client.c:979-1318 | frees the slot, updates the session, dispatches on the method, removes the session when it is gone |
| `RtspClient.RtspClient.RequestComplete` | src/rtsp_client.c:1319-1347 | counts timeouts and reconnects at the fifth |
| `RtspClient.RtspClient.ResponseProcess` | src/rtsp_client.c:1654-1701 | a response with another sequence number is dropped as that of the first session waiting for a keep-alive, or is an error |
| `RtspClient.RtspClient.TeardownRequestProcess` | src/rtsp_client.c:1435-1509 | a TEARDOWN from the server removes the named media, or the session |
| `RtspClient.RtspClient.OnDisconnected` | src/rtsp_client.c:1379-1415 | aborts the pending request and reconnects, or ends the connection |
| `RtspClient.RtspClient.OnConnected` | src/rtsp_client.c:1365-1377 | every session tries a keep-alive, in list order |
| `RtspClient.RtspClient.DisconnectCall` | src/rtsp_client.c:2124-2161 | ends the connection and removes all sessions |
| `UrlTheorems.NormalForm` | src/rtsp_url.c:257-511 | printing an accepted URL gives a text no longer than it that parses to an equal URL and prints to itself |
| `UrlTheorems.ExactlyWellFormed` | src/rtsp_url.c:257-354 | the parser produces exactly the well-formed URLs whose printed form is shorter than PATH_MAX |
| `UrlTheorems.PrintParses` | src/rtsp_url.c:447-511 | a well-formed URL of allowed length is read back from its printed form |
| `UrlTheorems.HostReadBack` | src/rtsp_url.c:99-185 | a printed host, bracketed when it has a colon, and port are read back |
| `UrlTheorems.AuthorityReadBack` | src/rtsp_url.c:188-225 | user, password (with `@` and `:` in it), host and port are read back from the printed authority |
| `UrlTheorems.StrippedKeepsTheRest` | src/rtsp_url.c:696-726 | the stripped URL parses to the same URL without user and password; stripping again changes nothing |
| `UrlTheorems.AnonymisedKeepsTheRest` | src/rtsp_url.c:729-808 | the anonymised URL parses to the same scheme, host, port and field lengths, and is a fixed point |
| `UrlTheorems.AnonymisedHidesCredentials` | src/rtsp_url.c:729-808 | URLs that differ only in credentials of the same lengths anonymise to the same text |
| `UrlBuffer.CutPath` | src/rtsp_url.c:228-254 | overwrites trailing slashes with terminators and checks the characters |
| `UrlBuffer.CutHostAndPort` | src/rtsp_url.c:99-185 | cuts the host out in place, reads the port, checks the characters |
| `UrlBuffer.CutAuthority` | src/rtsp_url.c:188-225 | cuts the credentials at the last `@` and the user name at the first colon, in place |
| `UrlBuffer.ParseInternal` | src/rtsp_url.c:257-354 | the in-place parser succeeds on the same texts as `Parse`, and the strings its offsets point to are the fields of the parsed URL |
| `UrlBuffer.AnonymizeStr` | src/rtsp_url.c:729-755 | overwrites all but the kept ends with stars |
| `Text.DecIsShortest` | src/rtsp_url.c:473-474 | no string of digits with this value is shorter than the printed port |
| `Base64.DecodeEncode` | src/rtsp_base64.c:50-165 | decoding the encoding of any 1 to 3072 bytes gives those bytes |
| `Base64.LimitsMeet` | src/rtsp_base64.c:50-165 | the length limits of encoder and decoder meet exactly, in both directions |
| `Base64.EncodeDecode` | src/rtsp_base64.c:50-165 | re-encoding a decodable string gives it back if and only if its unused trailing bits are zero |
| `Base64.ShiftsAreDivisions` | src/rtsp_base64.c:65-74 | the shifts and masks are the divisions and remainders of the model |
| `Base64.EncodeLoop` | src/rtsp_base64.c:50-99 | the encoder with its output pointer |
| `Base64.DecodeLoop` | src/rtsp_base64.c:102-165 | the decoder with its accumulator: error for a wrong length, padding or character |
| `Tokens.StrTok` | src/rtsp.c:1676-1769 | one `strtok_r` call: skip delimiters, take the token, remember where to go on |
| `Tokens.AllJoined` | src/rtsp.c:1287-1769 | the tokens of texts joined by delimiters are those texts |
| `TransportTheorems.ListRoundTrip` | src/rtsp.c:1287-1769 | reading the writer's output for any list of RTP/AVP entries gives them back in order and in normal form, the first ones when there are more than the reader takes |
| `TransportTheorems.WellFormedRoundTrip` | src/rtsp.c:1287-1769 | a list of 1 to 5 well-formed entries comes back unchanged |
| `TransportTheorems.UnchangedIff` | src/rtsp.c:1385-1440 | an entry comes back unchanged if and only if it is in normal form: nothing the writer leaves out, control ports given |
| `TransportTheorems.WriteLoop` | src/rtsp.c:1287-1502 | the loop that appends entry after entry |
| `TransportTheorems.ReadLoop` | src/rtsp.c:1660-1769 | the nested `strtok_r` loops of the reader |
| `Authorization.DigestRoundTrip` | src/rtsp.c:1906-2224 | reading a written Digest header with a response and comma-free values gives the same fields, in normal form, including empty values, quotes and the 32-bit count |
| `Authorization.UnchangedIff` | src/rtsp.c:1906-2224 | it comes back unchanged if and only if it holds nothing the writer leaves out |
| `Authorization.BasicRoundTrip` | src/rtsp.c:1929-1945 | credentials that do not look like a challenge come back |
| `Authorization.ReadParamsLoop` | src/rtsp.c:2203-2210 | the loop over the parameters of a Digest |
| `RequestTheorems.NameOfText` | src/rtsp.c:2562-2690 | no written field name starts like one the prefix-based dispatch tries earlier |
| `RequestTheorems.NameOfExtension` | src/rtsp.c:2684-2690 | an `X-` key is dispatched as an extension |
| `RequestTheorems.RangeRead` | src/rtsp.c:718-923 | every NPT range in whole seconds that the writer accepts is read back |
| `RequestTheorems.LinesProcessed` | src/rtsp.c:2331-2704 | the written lines, processed one after the other, make up the header in normal form |
| `RequestFrames.RequestRoundTrip` | src/rtsp.c:2331-2704 | reading a written request header, followed by any body, gives the same header in normal form and the place where the body starts |
| `RequestFrames.RequestIsFrame` | src/rtsp.c:3433-3546 | a written request with the body it announces is a well-formed frame of the stream |
| `RequestFrames.RequestsArrive` | src/rtsp_server.c:1520-1551 | requests written one after the other with their bodies are all delivered, in order, with their headers and bodies, however the bytes are cut into chunks, by the receive loop with the 64-bit sum and any reader that reads requests as this one does |
| `RequestHeader.MagicRefused` | src/rtsp.c:2535-2560 | an empty header, or one that starts with `$`, is refused |
| `RequestHeader.ReadHeader` | src/rtsp.c:2498-2704 | the reader: header end, request line, then the lines until one stops it |
| `RequestHeader.WriteHeader` | src/rtsp.c:2331-2495 | the writer: field after field, then the extensions in a loop; a Digest without a response does not end its line |
| `RequestDigests.DigestReadBackIff` | src/rtsp.c:1945-1953 | a Digest authorization in a header otherwise fit to be written is accepted by the writer, and what was written is read back if and only if its response is not empty; otherwise the reader fails with -EPROTO |
| `RequestDigests.ReadNotWrittenIff` | src/rtsp.c:887-900 | a range that was read is refused by the writer if and only if its text stops at now, or is a dash without times |
| `RequestDigests.ReadNotWritten` | src/rtsp.c:887-900 | the reader accepts `npt=-` and `npt=now-now`, which the writer refuses |
| `Terminator.EndsOfHeader` | src/rtsp.c:338-368 | the patterns as literals: the first CR LF CR LF closes a header, without one the first LF CR LF CR, then the first two LF, then the first two CR; a NUL hides what comes after it |
| `Stream.KindIs` | src/rtsp.c:3495-3499 | a header is that of a response exactly when it starts with `RTSP/1.0` |
| `Stream.PacketWritten` | src/rtsp.c:3373-3430 | the bytes of a built packet: `$`, the channel up to 255, the length in two bytes, and a payload of 1 to 65531 bytes |
| `StreamLengths.TextRead` | src/rtsp.c:3481-3541 | a header closed by CR LF CR LF is handed to the reader of responses exactly when it starts with `RTSP/1.0`, otherwise to that of requests, and is delivered with that kind, what the reader read and the body bytes it announces, or waits for them; a refused header is skipped |
| `StreamLengths.PacketRead` | src/rtsp.c:3332-3355 | `$`, a channel, two bytes of length and as many bytes of payload at the front of the buffer are delivered as that packet |
| `StreamLengths.ResponsesArrive` | src/rtsp_client.c:1735-1770 | a stream of frames that is cut safely arrives frame by frame, those that start with `RTSP/1.0` and no others as responses |
| `RequestFields.NumberLines` | src/rtsp.c:2562-2690 | a line of any peer whose name starts with `CSeq` or `Content-Length`, in any case, sets that number and nothing else |
| `RequestFields.TextLines` | src/rtsp.c:2562-2690 | the same for `Content-Type`, `User-Agent`, `Server` and `Accept`, whose value is taken as it is, and for `X-`, which is kept with its whole name |
| `RequestFields.StructuredLines` | src/rtsp.c:2594-2690 | the same for `Session`, `Transport` (at most five entries), `Authorization` and `Range`, whose values go to their own readers; the header stops at the error of one of them |
| `RequestFields.SessionWords` | src/rtsp.c:966-990 | the id ends at the semicolon; `timeout=` after it gives the timeout, which is 0 otherwise |
| `RequestFields.OtherLines` | src/rtsp.c:2562-2690 | a line with none of these names sets nothing |
| `RequestFields.MethodWords` | src/rtsp.c:118-140 | the eleven methods and their words |
| `RequestFields.RequestLineWords` | src/rtsp.c:2535-2560 | a request line is accepted exactly with one of these methods and the version `RTSP/1.0`; otherwise -EPROTO |
| `RequestFields.PeerHeaderRead` | src/rtsp.c:2502-2704 | a header of any peer reads as its request line and then its lines, one after the other, and ends where the body starts |
| `RequestFields.HeaderWords` | src/rtsp.c:2335-2495 | what is written: method, URL and `RTSP/1.0`, then each literal line exactly when its field is given, in the writer's order, and an empty line |
| `RequestFields.ClosedWords` | src/rtsp.c:2485-2495 | CR LF after each line, and an empty line at the end |
| `RequestFields.TimeWords` | src/rtsp.c:441-495 | nothing, `now`, whole seconds, or hours, minutes and seconds between colons, added up in 32 bits; two parts are refused |
| `RequestFields.TimeIsWritten` | src/rtsp.c:371-438 | `now`, nothing, the seconds below a minute, or hours, minutes and seconds with two digits for the last two |
| `RequestFields.RangeIsWritten` | src/rtsp.c:722-800 | `npt=`, the start, and after a dash the stop; refused when it stops at now or is open at both ends |
| `RequestFields.OtherRanges` | src/rtsp.c:807-860 | the other formats are refused with -ENOSYS, unknown ones and a value without one with -EINVAL, texts of 4096 characters or more with -ENAMETOOLONG |
| `ServerOperations.IdleStays` | src/rtsp_server.c:2892-2905 | whatever happens, only a request on the session puts an operation in progress |
| `ServerOperations.OperationEnds` | src/rtsp_server.c:1355-1366 | however a SETUP, PLAY, PAUSE, RECORD or TEARDOWN is answered, inside its callback or after it: when it has left the pending list no operation is in progress on its session, and over any run in which no other request begins on it the next forced teardown succeeds and removes it |
| `ServerOperations.AggregateEnds` | src/rtsp_server.c:2300-2389 | a PLAY, PAUSE or RECORD from arrival to the end of its callbacks: its session has the range, for PLAY the scale, of the answers, plays or records accordingly, is otherwise as before, and can be torn down by force |
| `ServerOperations.AggregateInProgress` | src/rtsp_server.c:2892-2905 | before the last answer every forced teardown of the session is refused and changes nothing |
| `ServerOperations.TeardownEnds` | src/rtsp_server.c:2752-2775 | a TEARDOWN that leaves medias ends its operation as well |
| `ServerOperations.TimeoutKeepsOperation` | src/rtsp_server.c:179-204 | a request that ends by its timeout leaves the sessions alone, so that one with the operation in progress goes on refusing forced teardowns |
| `ServerCalls.SessionBySid` | src/rtsp_server_session.c:195-217 | a session id finds the one session that agrees with it on the first 8 characters |
| `ServerCalls.SingleAnswered` | src/rtsp_server.c:1811-1956 | the status sent, the code returned and what becomes of the request, for every answer to DESCRIBE and ANNOUNCE |
| `ServerCalls.SetupAnswered` | src/rtsp_server.c:1959-2158 | the same for SETUP; the removal of the session is queued exactly when the SETUP fails and the session has no other media |
| `ServerCalls.MediaAnswered` | src/rtsp_server.c:2161-2389 | the status sent and the code returned for every answer of one media: an error of the answer, a range that differs, medias still missing, or the last answer |
| `ServerCalls.MediaCounted` | src/rtsp_server.c:2245-2310 | an answer that is counted marks its media; the first one fixes range and scale of the session |
| `ServerCalls.ReturnedWaits` | src/rtsp_server.c:586-612 | callbacks that return before the last answer leave the request waiting, its next answer counting as a first one |
| `ServerCalls.AnsweredAtOnce` | src/rtsp_server.c:314-388 | OPTIONS and GET_PARAMETER get a 200 at once and leave nothing behind |
| `ServerCalls.RejectedOrIgnored` | src/rtsp_server.c:1373-1476 | a request its handler refuses gets the error and is gone; one that is passed over stays pending for its timeout |
| `ServerCalls.SingleBegins` | src/rtsp_server.c:391-425 | DESCRIBE and ANNOUNCE run their callback with the request pending |
| `ServerCalls.UnknownSession` | src/rtsp_server.c:539-575 | a request for a session that is not known, or one without medias but for SETUP, gets a 454 and changes no session |
| `ServerCalls.SetupKnown` | src/rtsp_server.c:428-536 | a SETUP adds one media with its path to the known session, or is refused when the session has that path |
| `ServerCalls.SetupNew` | src/rtsp_server.c:428-536 | a SETUP without session id makes one new session with one media, its timer armed |
| `ServerCalls.SessionGoes` | src/rtsp_server.c:208-253 | the session timer and the queued idle removal take the session with its timers and nothing else |
| `ServerCalls.ConnectionGoes` | src/rtsp_server.c:296-303 | exactly the requests of the lost connection lose it; all stay pending |
| `ServerCalls.TimerFires` | src/rtsp_server.c:161-205 | the first request whose deadline is set and past gets a 500 if its connection is up, and its callback runs while the later ones wait; without one nothing happens |
| `ServerCalls.ForcedOutcome` | src/rtsp_server.c:2866-2958 | -ENOENT, -EALREADY and -EBUSY change nothing; otherwise exactly the media with that path goes, or the session |
| `ClientOperations.TeardownLeaves` | src/rtsp_client.c:874-931 | a completed TEARDOWN whose URL names a media leaves exactly the other medias, frees just that media's channels, and the session is gone if and only if it was the last; one whose URL names the session leaves nothing of it |
| `ClientOperations.TeardownReady` | src/rtsp_client_session.c:171-240 | after every run with an honest server the client is in such a state, but for a session without a content base |
| `ClientOperations.TeardownMisses` | src/rtsp_client.c:889-898 | a TEARDOWN that names neither takes nothing, unless the answer is 454 |
| `ClientOperations.ServerTeardownLeaves` | src/rtsp_client.c:1444-1509 | a TEARDOWN from the server: the same for the media it names, all of the session for any other URL with a path, and nothing when the session is not known (-ENOENT) or the path is missing (-EINVAL) |
| `ClientOperations.SetupAdds` | src/rtsp_client.c:721-772 | a SETUP answered with success: the session of the answer exists and has a media at the path of the URL, with the answer's channels over TCP and none over UDP; all medias known before stay, none is added when the path was known or missing, and the table follows |
| `ClientOperations.SetupAddsNothing` | src/rtsp_client.c:773-797 | a SETUP that fails, or is answered without a session, frees its channels and adds no media |
| `ClientCalls.RequestIssued` | src/rtsp_client.c:2173-2216 | OPTIONS, DESCRIBE and ANNOUNCE go to the URL given, PLAY, PAUSE and RECORD to the content base of a known session with its id; -ENOSYS, -EPIPE, -EBUSY and -ENOENT, in this order |
| `ClientCalls.ResourceUri` | src/rtsp_client.c:189-223 | a resource starting with `rtsp://` is the URL; otherwise it follows the content base, after one slash |
| `ClientCalls.TeardownIssued` | src/rtsp_client.c:585-664 | to the content base for a whole session, otherwise to the resource; the session bears no mark of the library |
| `ClientCalls.SetupIssued` | src/rtsp_client.c:2374-2530 | the checks in order with their codes; the channels asked for, or the lowest free even channel and its successor, are marked and go with the request |
| `ClientCalls.KeepAliveIssued` | src/rtsp_client.c:490-566 | a keep-alive goes to the content base of its session on a connection that is up with the slot free; otherwise its code |
| `ClientCalls.OtherAnswer` | src/rtsp_client.c:1654-1701 | an answer with another number clears the flag of the first session that waits, or is -EPROTO |
| `ClientCalls.KeepAliveAnswered` | src/rtsp_client.c:1255-1318 | an answered keep-alive clears the failures of its session and reports nothing; 454 removes the session |
| `ClientCalls.MethodsLearned` | src/rtsp_client.c:1145-1156 | the completion of OPTIONS replaces the methods the server is known to take; other completions keep them |
| `ClientCalls.NotFoundRemoves` | src/rtsp_client.c:1057-1070 | a 454 to any request but TEARDOWN removes the session and no other |
| `ClientCalls.ReportedStatus` | src/rtsp_client.c:979-1057 | success for 2xx, failure for other answers, and timeout, cancellation or abortion without one |
| `ClientCalls.LinkEvents` | src/rtsp_client.c:1365-1415 | how the connection itself changes with each event |
| `ClientCalls.UpProbes` | src/rtsp_client.c:1365-1377 | when the connection comes up, exactly the first session whose keep-alive can be sent gets the slot |
| `ClientCalls.DisconnectLeavesNothing` | src/rtsp_client.c:2124-2161 | the user's disconnection leaves no session |
| `ClientCalls.RemoveCallLeaves` | src/rtsp_client_session.c:85-128 | removing a session frees exactly its channels; -ENOENT for an unknown one |
| `UrlForms.Schemes` | src/rtsp_url.c:49-57 | `rtsp://`, `rtspu://` and `rtsps://`; without a port 554, or 322 for TLS; anything else, and 4096 characters or more, is refused |
| `UrlForms.Alphabets` | src/rtsp_url.c:92-96 | the characters of host names, of addresses in brackets and of paths |
| `UrlForms.PortWords` | src/rtsp_url.c:155-172 | the digits of a port up to 65535; larger ones are refused |
| `UrlForms.HostWords` | src/rtsp_url.c:128-150 | a host with and without a port |
| `UrlForms.BracketWords` | src/rtsp_url.c:104-127 | an address in brackets with and without a port |
| `UrlForms.FullUrl` | src/rtsp_url.c:257-354 | where user, password, host, port and path stand |
| `UrlForms.BareUrl` | src/rtsp_url.c:228-254 | without credentials and port; slashes at the end do not belong to the path |
| `UrlForms.RefusedUrls` | src/rtsp_url.c:257-354 | no host, an empty user name, a port that is too large, and characters that do not belong are refused |
| `UrlForms.PrintedWords` | src/rtsp_url.c:447-511 | the printed form, part by part: brackets for a host with colons, the port only when it was given |
| `UrlForms.AnonymisedShows` | src/rtsp_url.c:729-808 | stars for all of the credentials, and for all of a path longer than four but two characters at each end |
| `Base64Words.EncodeWords` | src/rtsp_base64.c:50-99 | three bytes are the four letters of their 24 bits, the highest six first; one or two bytes at the end come with `==` or `=` |
| `Base64Words.DecodesIff` | src/rtsp_base64.c:102-165 | exactly the texts of up to 4096 characters in fours that are in the alphabet but for up to two `=` at the end are decoded |
| `TransportFields.HeadWords` | src/rtsp.c:1700-1746 | every head: RTP and AVP, then nothing or UDP, TCP or MUX; any other head is refused |
| `TransportFields.Heads` | src/rtsp.c:1700-1746 | `RTP/AVP` and `RTP/AVP/UDP` are UDP, `RTP/AVP/TCP` is TCP, `RTP/AVP/MUX` is MUX, `RTP` alone is refused |
| `TransportFields.FlagWords` | src/rtsp.c:1514-1544 | `unicast`, `multicast` and `append` |
| `TransportFields.AddressWords` | src/rtsp.c:1526-1538 | `destination` and `source` with their addresses |
| `TransportFields.NumberWords` | src/rtsp.c:1546-1558 | `ttl` and `layers` with their numbers, modulo 2^32 |
| `TransportFields.PortValues` | src/rtsp.c:1560-1594 | two ports with a dash, or one port and the next one, modulo 2^16 |
| `TransportFields.PortWords` | src/rtsp.c:1560-1594 | `port` and `client_port` set the ports of the client, `server_port` those of the server |
| `TransportFields.SsrcWords` | src/rtsp.c:1596-1601 | eight hexadecimal digits of either case |
| `TransportFields.ModeWords` | src/rtsp.c:1603-1621 | PLAY or RECORD in any case, whatever follows; other words leave the mode |
| `TransportFields.InterleavedWords` | src/rtsp.c:1623-1655 | a pair of channels, modulo 256 |
| `TransportFields.OtherWords` | src/rtsp.c:1508-1660 | every other word, and one that lacks its value, sets nothing |
| `TransportFields.PeerEntry` | src/rtsp.c:1731-1734 | an entry whose head has two parts, which the writer never sends, is read as UDP with its ports |
| `TransportFields.EntryWords` | src/rtsp.c:1327-1495 | the writer's text: the head, then each literal parameter exactly when it is given, in the writer's order |
| `AuthorizationFields.TextWords` | src/rtsp.c:2026-2082 | the seven text parameters of a Digest, with quotes or without, after a blank or not, set their own field |
| `AuthorizationFields.ChoiceWords` | src/rtsp.c:2056-2076 | `MD5`, `MD5-sess`, `auth` and `auth-int` in any case; other words are kept apart from none |
| `AuthorizationFields.CountWords` | src/rtsp.c:2084-2108 | the count in eight hexadecimal digits |
| `AuthorizationFields.SchemeWords` | src/rtsp.c:2165-2218 | `Basic` or `Digest` in any case and what follows it; other words are refused with -EPROTO |
| `AuthorizationFields.HeaderWords` | src/rtsp.c:1910-2015 | the writer's text: the scheme, and each literal parameter exactly when it is given, in quotes and in the writer's order |

## Left out

- Stream.NextProgress: the results of `Stream` and `StreamTheorems` are stated for header readers that refuse a header starting with `$` (`RequestHeader.MagicRefused` shows it for requests) and a negative Content-Length; `StreamLengths` carries them over to readers that accept one.
- MessageStream.MessageStream.Receive: a loop that a negative length keeps from ever asking for more bytes has no end state and is excluded; `StreamLengths.DrainAgrees` shows that without negative lengths it always ends.
- StreamLengths.FramesDelivered: what is delivered after a header with a negative length is not modelled beyond its call, because its body would lie outside the message.
- RtspServer.RtspServer.ReplyToMedia: the RTP-Info a PLAY collects, and the URIs of sessions and medias, are not part of the state, because nothing proved depends on them.
- RtspClient.RtspClient.SettleRequest: cached authentication data, the keep-alive timers' periods and the connection-state callback are not modelled; a session's keep-alive timer may fire at any time, which allows more runs than the code has.
- Base64.DecodeLoop: the one loop with a modulo test is written as a loop over groups of four characters.
- RequestHeader.ReadHeader: the terminators `strtok_r` writes into the header are not modelled here (for URLs, `UrlBuffer` does), nor are the fields Date and Scale, absolute range times, and fractions of NPT seconds.
- RequestHeader.WriteHeader: the bound of the output buffer (-ENOBUFS) is not modelled, nor is it for the other writers.
- TransportTheorems.ReadLoop: more than one interleaved pair is outside the round trip, because the list reader splits at its comma.
- UrlTheorems.NormalForm: the resolved host is not a field of the model; it depends only on the host.
- Channels.AllocateChannels: a search that would go round for ever has no next state; it is excluded by its precondition and characterised by `Channels.SearchEndsIff`.
- API calls an application makes from inside a client callback are modelled as happening after the handler.
- RtspServer.RtspServer.WalkOn: when the timeout callback settles the very request the walk has saved as its next one, the code goes on from a request that is gone; the model goes on with the one after it.
- The headers of responses, RTP-Info, Allow, Public and WWW-Authenticate: their readers and writers follow the same pattern and are not modelled; the response reader is a parameter of the stream.
- Memory exhaustion, freeing, pointers the application keeps after an object is gone, argument checks for null pointers, a session created without a content base.
- Sockets, TLS, name resolution, the event loop, logging, MD5 and random numbers, date and time formatting, the tables of status codes, the C++ wrapper.
