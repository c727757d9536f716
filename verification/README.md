# grpcurl, modelled and proved

This project models the parts of grpcurl that carry real protocols, graph
algorithms, arithmetic and codecs, and proves what they are for. Everything is
stated for all inputs, all runs or all reachable states.

* **Support chat** (the `Chat*` modules). Any number of customer and agent streams
  share sessions, a waiting queue, listeners and one-slot channels. `ChatModel` is the
  state machine: each critical section is one step, and so is each channel send, each
  receive and each close; the read lock a broadcast holds is part of the state, and
  resuming reads `sess.active`, reads `sess.cust` and writes `sess.cust` in three steps
  under the server's lock alone. `ChatInvariant`, `ChatFrames` and `ChatSafety` prove
  locks and channels safe in every run, `ChatProgress` that none of them deadlocks; `ChatToken`, `ChatSeats`, `ChatOrder`,
  `ChatSides`, `ChatGaps` and `ChatRuns` follow session ids and messages; `ChatLife` says what a
  closed session still does, and `ChatScenarios` has runs (`ChatPaths`) that show it.
  `ChatServer` holds the same state in mutable fields; its handlers, loops included, are
  proved to be sequences of steps and to do what `ChatHandling` says each is for.
* **Invocation** (`Invoke`, `Bidi`). The three sequential kinds of call are methods
  against a scripted stream; the bidirectional kind is a state machine in which
  the sender goroutine, the receive loop, the cancellation, the shared error cell
  and the join interleave, and every call on the stream may end as it likes.
* **Descriptor graphs** (`FileGraph`, `FileSource`, `ProtosetWriter`,
  `ProtosetLoader`, `Extensions`, `Template`). Files are numbered in the order of
  their creation, so a file depends on earlier ones only; message types may refer
  to each other in any way.
* **Headers** (`Base64`, `Base64Texts`, `Decoder`, `HeaderLines`, `Metadata`, `Expand`): the
  lenient decoder and exactly which texts it accepts, the metadata printer and parser, what a
  header line means, and the expansion of environment variables.
* **Bank** (`Accounts`, `Bank`, `Transfers`): accounts with 32-bit balances, the
  indexes over them, the RPCs, and transfers whose two transactions interleave.
* **Text format** (`TextFormat`) and the **Any cache** (`AnyCache`): messages
  between record separators, and double-checked locking over a descriptor source.

`Wrappers`, `Queues`, `Paths`, `Ascii`, `Int32` (32-bit wrap-around) and `Separated`
(splitting and joining texts) are shared. `dafny verify dfyconfig.toml` checks it all.

Some things one might expect turn out false of the code; each is stated with the
exact condition, or as what is true instead:

* `support.proto` (internal/testing/cmd/bankdemo/support.proto:75-76) speaks of
  several agents in one session. As long as new ids are new the code does not allow two:
  taking an id off the queue and putting it back when the last agent leaves makes the id
  a token (`ChatRuns.IdIsAToken`, `ChatRuns.AgentsAreExclusive`).
* New ids need not be new, since the 32-bit counter repeats
  (`ChatScenarios.IdsCanRepeat`). A run keeps the token exactly if no id it hands out is
  queued or held by an agent at that moment (`ChatRuns.TokenExactly`), which is so
  while at most 2^32 sessions were opened (`ChatRuns.FewSessionsAreFresh`). What does
  not need the token is proved for all runs.
* A queued id need not lead to a session (`ChatScenarios.DeadIdIsQueued`). In any run,
  all queued ids do throughout exactly if no last agent leaves a session taken off the
  map and no session is taken off the map while its id is queued twice
  (`ChatLife.LiveExactly`); the latter cannot be while new ids are new
  (`ChatLife.LiveWhenFresh`).
* A closed session can still grow (`ChatScenarios.ClosedSessionGrows`): exactly when its
  own customer stream goes on posting (`ChatLife.ClosedHistoryGrowsExactly`).
* The server can be brought down (`ChatScenarios.UnknownIdPanics`), but only by
  resuming an id that is not in the map (`ChatSafety.PanicsExactly`).
* A supplier's error in a bidirectional call can be lost, since the call is
  cancelled before the error is stored (`Bidi.SupplierErrorCanBeLost`);
  `Bidi.SupplierErrorSurfaces` says exactly when it is not.
* Expanding the values one after the other differs from expanding all at once when
  a value itself spells a reference (`Expand.ValuesAreExpandedAgain`).
* A transfer is not atomic: a destination it would fill past 2^31-1 keeps it out
  after the source was debited. `Transfers.AloneIsBothOrNeither` gives the exact
  condition and `Transfers.MoneyCanBeStranded` a run.

## Model

| member | source | states |
|---|---|---|
| ChatSafety.RunStruct | internal/testing/cmd/bankdemo/chat.go:55-466 | in every state of every run, however long: locks, registrations, channels and program positions agree with each other |
| ChatSafety.StructStep | internal/testing/cmd/bankdemo/chat.go:55-466 | each single step of any stream keeps that |
| ChatSafety.PanicsExactly | internal/testing/cmd/bankdemo/chat.go:361-364 | a step of a run panics if and only if it resumes an id that is not in the map; so none sends on a closed channel, closes one twice, or follows a nil listener between the two reads of `sess.cust` |
| ChatSafety.SendsHitOpenChannels | internal/testing/cmd/bankdemo/chat.go:304-314 | whatever listener a broadcast is about to serve is registered and its channel is open |
| ChatSafety.ClosedExactlyOnce | internal/testing/cmd/bankdemo/chat.go:181-198 | a channel is open exactly while its owning stream is still on its session with it; afterwards it has been closed once |
| ChatSafety.ClosedByOwner | internal/testing/cmd/bankdemo/chat.go:72-73 | no step but the owner's own close changes how often a channel was closed |
| ChatSafety.ReadersSeeNoWrites | internal/testing/cmd/bankdemo/chat.go:148-153 | in every run nothing of a session changes while a broadcast holds its read lock, except that a resuming customer may take its empty seat |
| ChatSafety.ListsAreGuarded | internal/testing/cmd/bankdemo/chat.go:334-466 | while a stream is inside a section of the server's lock no step of any stream changes the queue, the map or the counter |
| ChatSafety.GoneIsNotWaitedFor | internal/testing/cmd/bankdemo/chat.go:38-43 | a send to a listener whose client is gone can be given up |
| ChatSafety.CustomersAreExclusive | internal/testing/cmd/bankdemo/chat.go:372-375 | at most one customer stream is on a session at a time, in every run |
| ChatProgress.NoDeadlock | internal/testing/cmd/bankdemo/chat.go:55-466 | in every run, while some stream is in the middle of something, the program can go on by itself: a lock's holder can move, and whoever finds a channel full leaves an item for its listener to take |
| ChatProgress.RequestsAreServed | internal/testing/cmd/bankdemo/chat.go:83-173 | a request in hand is served once the locks it wants are free, whatever it is, and the client may go instead |
| ChatInvariant.StructResumeSet | internal/testing/cmd/bankdemo/chat.go:377-384 | writing `sess.cust` outside the session's own lock still never displaces a listener |
| ChatInvariant.StructDetach | internal/testing/cmd/bankdemo/chat.go:67-71 | unregistering under the write lock leaves no broadcast with a listener that is gone |
| ChatToken.NewSessionKeepsToken | internal/testing/cmd/bankdemo/chat.go:337-339 | handing out an id keeps the token property if and only if the id is neither queued nor held by an agent stream |
| ChatToken.TokenAccept | internal/testing/cmd/bankdemo/chat.go:425-449 | the chosen id, the first or a wanted one, leaves the queue and the stream comes to hold it, unless the id is known no more and is dropped; the token property is kept |
| ChatToken.TokenDetach | internal/testing/cmd/bankdemo/chat.go:181-190 | the leaving stream gives its id up, back to the end of the queue if it was the session's last agent; the token property is kept |
| ChatToken.TokenStep | internal/testing/cmd/bankdemo/chat.go:55-466 | any step keeps the token property, except a new session whose id is not new, which never does |
| ChatRuns.TokenExactly | internal/testing/cmd/bankdemo/chat.go:337-339 | the token property holds throughout a run if and only if every id the run hands out is new at that moment |
| ChatRuns.FewSessionsAreFresh | internal/testing/cmd/bankdemo/chat.go:337-339 | every run that opened at most 2^32 sessions handed out new ids |
| ChatRuns.IdIsAToken | internal/testing/cmd/bankdemo/chat.go:184-189 | in a run that hands out new ids, occurrences of an id in the queue plus agent streams that hold a session of that id never exceed one |
| ChatRuns.AgentsAreExclusive | internal/testing/cmd/bankdemo/chat.go:459-464 | in such a run at most one agent stream is on a session at a time |
| ChatRuns.CustomerOrder | internal/testing/cmd/bankdemo/chat.go:143-153 | in every run a channel carries entries of its own session's history, and what customers said reaches an agent's channel strictly in history order |
| ChatRuns.HistoryOrder | internal/testing/cmd/bankdemo/chat.go:292-315 | in a run that hands out new ids a channel carries nothing but what the other side said, strictly in history order |
| ChatRuns.NothingMissed | internal/testing/cmd/bankdemo/chat.go:97-106 | no gap on joining: every entry of the other side is in the snapshot the stream got, was handed to its channel, or is still between append and hand-over; for customers in every run, for agents in every run that hands out new ids |
| ChatGaps.GapStep | internal/testing/cmd/bankdemo/chat.go:55-466 | no step of any stream opens a gap for a stream that follows a session |
| ChatGaps.CopyNoGap | internal/testing/cmd/bankdemo/chat.go:45-53 | copying the session after the listener is registered leaves no entry uncovered |
| ChatGaps.PostNoGap | internal/testing/cmd/bankdemo/chat.go:143-146 | an appended entry is still to come for every listener of the other side |
| ChatGaps.SendCustNoGap | internal/testing/cmd/bankdemo/chat.go:306-308 | handing the customer its copy leaves no entry uncovered |
| ChatGaps.SendAgentNoGap | internal/testing/cmd/bankdemo/chat.go:309-314 | nor does handing an agent its copy, in whatever order the map is walked |
| ChatOrder.OrderStep | internal/testing/cmd/bankdemo/chat.go:55-466 | no step disturbs the order of what customers said on agents' channels, and while ids are tokens none disturbs that of what agents said on customers' |
| ChatOrder.PostOrder | internal/testing/cmd/bankdemo/chat.go:143-146 | appending under the write lock leaves every channel, and every broadcast under way, in history order, for either side |
| ChatOrder.SendCustOrder | internal/testing/cmd/bankdemo/chat.go:306-308 | so does handing the customer its copy: for the agents' messages if ids are tokens, for the customers' always |
| ChatOrder.SendAgentOrder | internal/testing/cmd/bankdemo/chat.go:309-314 | so does handing an agent its copy, whoever hands it |
| ChatSides.SidesStep | internal/testing/cmd/bankdemo/chat.go:304-314 | while ids are tokens no step puts on a channel what the listener's own side said |
| ChatLife.LiveStep | internal/testing/cmd/bankdemo/chat.go:181-190 | from a queue whose ids all lead to sessions, a step ends in such a queue unless, and only unless, the last agent leaves a session that is off the map or a session goes off the map while its id is queued twice |
| ChatLife.LiveExactly | internal/testing/cmd/bankdemo/chat.go:412-420 | in every run, all queued ids lead to sessions throughout if and only if no step is of those two kinds |
| ChatLife.LiveWhenFresh | internal/testing/cmd/bankdemo/chat.go:184-189 | in a run that hands out new ids, if and only if no last agent leaves a session that is off the map |
| ChatLife.ClosedHistoryGrowsExactly | internal/testing/cmd/bankdemo/chat.go:143-146 | a step changes a closed session's history if and only if that session's customer stream posts |
| ChatLife.ClosedHistoriesInRuns | internal/testing/cmd/bankdemo/chat.go:137-146 | the same for every step of every run |
| ChatScenarios.DeadIdIsQueued | internal/testing/cmd/bankdemo/chat.go:184-189 | a run after which a closed, forgotten session's id is in the queue |
| ChatScenarios.ClosedSessionGrows | internal/testing/cmd/bankdemo/chat.go:143-146 | a run after which any given text was appended to a closed session's history |
| ChatScenarios.UnknownIdPanics | internal/testing/cmd/bankdemo/chat.go:361-364 | a run that panics, for any id |
| ChatScenarios.IdsCanRepeat | internal/testing/cmd/bankdemo/chat.go:337-339 | for every n above 2^32 a run after which n ids are queued, two of them equal, so that the token property fails |
| ChatServer.Server.DeleteWaiting | internal/testing/cmd/bankdemo/chat.go:437-443 | the loop finds an id if and only if it is queued, and removes its first occurrence and nothing else |
| ChatServer.Server.SendToAgents | internal/testing/cmd/bankdemo/chat.go:309-314 | the loop over the agents sends the item to each agent due exactly once, skipping those whose context is done, and to no other channel; it is a sequence of the machine's steps |
| ChatServer.Server.Say | internal/testing/cmd/bankdemo/chat.go:137-153 | a customer's message ends the history, every agent on the session whose context is not done was sent it once, and nothing else changed |
| ChatServer.Server.AgentSay | internal/testing/cmd/bankdemo/chat.go:282-318 | on an open session the customer and every other agent were sent the message once; on a closed one nobody was, and the agent is on its way out |
| ChatServer.Server.CloseSession | internal/testing/cmd/bankdemo/chat.go:387-421 | the first to close marks the session, tells every agent once, forgets the id and takes it off the queue; later ones change nothing |
| ChatServer.Server.Cleanup | internal/testing/cmd/bankdemo/chat.go:181-199 | the stream is off its session, its channel closed for the first time and on no session's list; the id is queued again when the last agent went |
| ChatServer.Server.OpenSession | internal/testing/cmd/bankdemo/chat.go:334-358 | the customer follows an open, empty session of its own, whose id is queued last and leads to it |
| ChatServer.Server.ResumeSession | internal/testing/cmd/bankdemo/chat.go:360-385 | it succeeds if and only if the session is the customer's own, open and without a customer stream, and then the customer follows it; an unknown id panics; otherwise only the stream ends |
| ChatServer.Server.TakeId | internal/testing/cmd/bankdemo/chat.go:425-447 | with no wish the oldest id of the queue is taken and the rest stay in order; a wanted id is taken if and only if it is queued, and one occurrence of it leaves |
| ChatServer.Server.AcceptSession | internal/testing/cmd/bankdemo/chat.go:423-466 | it succeeds if and only if the id, the oldest of the queue or the wanted one, is queued and leads to a session, and then the agent follows that; an id that leads nowhere is dropped |
| ChatServer.Server.NextRequest | internal/testing/cmd/bankdemo/chat.go:202-224 | an agent whose session was closed first leaves it: its channel is closed for the first time and on no session's list, its id queued again if it was the last, and it may accept another session; any other stream keeps its session, and nothing changes but that it has a request in hand |
| ChatServer.Server.Leave | internal/testing/cmd/bankdemo/chat.go:155-161 | hanging up, or an agent's leaving: the session is closed if it was not yet, then the stream is off it as after `Cleanup` and waits for what comes next |
| ChatServer.Server.Finish | internal/testing/cmd/bankdemo/chat.go:181-200 | the deferred cleanup of a stream that ends: if it was on a session it leaves that as after `Cleanup`, and it is done either way |
| ChatServer.Server.TakeItem | internal/testing/cmd/bankdemo/chat.go:246-247 | a listener gets the items of its channel in the order they were sent, each once |
| Bidi.RunInv | invoke.go:300-380 | what holds at every step of sender and receiver in every interleaving |
| Bidi.SendsInOrder | invoke.go:319-337 | what went out is the supplier's data in order, each piece in a message of its own, up to some point; CloseSend comes last if at all, after all data, on a clean end |
| Bidi.CloseSendExactly | invoke.go:322-327 | once the sender is gone CloseSend was called if and only if the supplier ended cleanly, and a sender that stopped before the end has its error on record |
| Bidi.SenderStops | invoke.go:319-341 | after the first failed send, the half-close or the supplier's error the sender takes nothing more from the supplier and sends nothing more, and that outcome, if an error, is what the cell holds in the end |
| Bidi.CancelledExactly | invoke.go:328-331 | the call is cancelled if and only if the supplier ended with an error |
| Bidi.NeverStuck | invoke.go:300-380 | the receiver waits for nothing but the sender, at the end, and the sender for nothing, whatever the stream answers |
| Bidi.Callbacks | invoke.go:345-377 | headers at most once, then the responses received in order, then trailers at most once; trailers exactly when the result is nil on a stream that opened |
| Bidi.SenderIsJoined | invoke.go:309-317 | the call returns only after the sender has finished |
| Bidi.ResultIsTheVerdict | invoke.go:351-379 | the result by the last word of RecvMsg and what the sender had stored at the receiver's look: a stored status or plain error counts, else io.EOF gives nil with trailers of code 0 last, a status nil with trailers of its code last, any other error non-nil and no trailers |
| Bidi.ReturnedWasJudged | invoke.go:351-366 | every call on an opened stream that is past its receive loop had a last RecvMsg, and then its look at the error cell, so that the above speaks of all of them |
| Bidi.SupplierErrorSurfaces | invoke.go:328-341 | after a supplier error the result is nil if and only if the cell was empty at the receiver's look and its own last word was io.EOF or a status; otherwise non-nil, and no trailers |
| Bidi.SupplierErrorCanBeLost | invoke.go:328-341 | a run in which the supplier fails and the call returns nil with trailers |
| Bidi.SilentSuccess | invoke.go:345-379 | nil without any callback happens exactly when the stream fails to open with a status error |
| Invoke.InvokeClientStream | invoke.go:193-245 | what was sent, when the upload stops, which error counts, and the callbacks that follow from the server's answer: a response and trailers of code 0, a status's trailers, or nothing and an error |
| Invoke.UploadEnds | invoke.go:201-220 | the upload sends a prefix of the data one piece to a message; it sends all of it unless a send fails first |
| Invoke.InvokeUnary | invoke.go:153-191 | exactly one request reaches the server or none; callbacks are headers, then the response with trailers of code 0, or a status's trailers, or nothing and an error |
| Invoke.InvokeServerStream | invoke.go:247-298 | the responses handed on are those received, in order; then the server's last word decides: io.EOF is nil with trailers of code 0 last, a status nil with trailers of its code last, any other error non-nil without trailers |
| Invoke.OnlyRequest | invoke.go:156-168 | a supplier passes if and only if it yields at most one message and then ends cleanly |
| FileSource.Collector.AddFile | desc_source.go:132-149 | on success all newly held files are reached from the given one and have their dependencies held; on failure two reached files clash |
| FileSource.Collector.AddAll | desc_source.go:122-130 | it succeeds if and only if no two distinct reachable files share a name, and then holds exactly the reachable files |
| FileGraph.ClosedHoldsReach | desc_source.go:143-147 | a set closed under dependencies that holds a file holds everything below it |
| ProtosetWriter.Writer.AddFilesToSet | desc_source.go:285-296 | the list grows by exactly what the file reaches, without duplicates and with every file after its dependencies |
| ProtosetWriter.Writer.GetFileDescriptors | desc_source.go:340-356 | it fails exactly when a symbol is unknown; else lists the file name of every symbol, once |
| ProtosetWriter.Writer.WriteProtoset | desc_source.go:262-283 | the list is duplicate-free, topologically sorted, and exactly the transitive closure of the symbols' files |
| ProtosetWriter.OrderedHoldsReach | desc_source.go:267-273 | in such a list everything a listed file reaches is listed |
| ProtosetLoader.BuildExactly | desc_source.go:96-118 | linking a file comes to something if and only if the file and everything it reaches along imports is there |
| ProtosetLoader.Loader.Resolve | desc_source.go:96-118 | a file is linked if and only if it and everything it reaches along imports is there; the memo only ever holds correctly linked files, each linked once and after all its dependencies |
| ProtosetLoader.Loader.Load | desc_source.go:81-94 | loading succeeds if and only if no imported name is missing, and then holds exactly the listed names, correctly linked, each once; a self-contained list is linked in its own order |
| ProtosetLoader.CompleteExactly | desc_source.go:81-94 | no imported name is missing if and only if every listed file has all it reaches along imports |
| ProtosetLoader.BuildAllIsEach | desc_source.go:104-111 | linking a list of dependencies succeeds if and only if linking each does, with each one's result in its place |
| ProtosetLoader.WrittenIsSelfContained | desc_source.go:285-296 | what WriteProtoset lists names every dependency earlier in the list |
| ProtosetLoader.WrittenIsAcyclic | desc_source.go:96-118 | so the loader, which has no mark for files in progress, terminates on it |
| ProtosetLoader.LinksBack | desc_source.go:104-112 | linking a written file by name gives back the file with all that is below it |
| ProtosetLoader.WriteThenLoad | desc_source.go:262-283 | the round trip: whenever all symbols are known, writing and loading rebuilds the same graph, linking every file once, in the order it was written |
| Extensions.Fetcher.Fetch | grpcurl.go:311-338 | the visited set grows by a set closed under fields and reached from the type; a failure is due to some reachable type; unvisited types decrease |
| Extensions.Fetcher.FetchBoth | invoke.go:122-130 | it succeeds if and only if every type reachable from input or output can be fetched; then exactly those types were visited, each type with ranges queried once, and the registry holds exactly their extensions |
| Extensions.ClosedHoldsReachable | grpcurl.go:328-336 | a set closed under fields holds everything reachable, on cyclic graphs too |
| Extensions.Fetcher.AddExtensions | grpcurl.go:322-326 | registering succeeds if and only if every descriptor is an extension, and adds all of them |
| Template.MakeTemplate | grpcurl.go:413-516 | on every type graph it terminates with the template of the type, and the caller's part of the shared path slice is as it was, whatever deeper frames appended |
| Template.TemplateIsUnique | grpcurl.go:457-515 | the description of a template leaves nothing open: a type has only one |
| Template.NestedIsTemplate | grpcurl.go:507-513 | every message inside a template is itself a template, one step further down |
| Template.TypesRepeatOnlyAtTheCut | grpcurl.go:459-464 | going down a template a type repeats only in the last message, which is then empty |
| Template.ChainsAreShort | grpcurl.go:459-464 | so nesting is at most one deeper than there are types |
| Template.Append | grpcurl.go:464 | append on a path slice, in place or into a larger array: the frame's own prefix stays |
| Template.Contains | grpcurl.go:460 | the search looks at the frame's own part of the path only |
| Base64.CodecDecodes | grpcurl.go:206 | each of the four encodings decodes what it encoded, for every byte string |
| Base64.CodecsAgree | grpcurl.go:208-224 | any two of the codecs that accept the same text agree on its value |
| Base64Texts.AcceptsExactly | grpcurl.go:206-215 | a padded codec accepts exactly the texts of its alphabet in groups of four that end with at most two equal signs; an unpadded one exactly the texts of its alphabet whose length is not one more than a multiple of four |
| Base64Texts.ValuesAreTabled | grpcurl.go:206 | a character has a value in a codec exactly if it is in the table of that alphabet in RFC 4648, and the value is its place there |
| Base64Texts.DecodedBytes | grpcurl.go:208-215 | byte for byte, the value of an accepted text is its letters' six-bit places in a row, cut into eights |
| Base64Texts.EncodedLetters | grpcurl.go:248-250 | letter for letter, an encoding is the table's letters for the bytes' bits cut into sixes |
| Base64Texts.BreaksVanish | grpcurl.go:208-215 | a carriage return or line feed makes no difference, wherever it stands |
| Base64Texts.BreaksOnly | grpcurl.go:208-215 | and nothing else is passed over |
| Decoder.LenientDecodes | grpcurl.go:208-224 | so the decoder gives back the bytes whichever of the encodings was used |
| Decoder.LenientExactly | grpcurl.go:208-224 | a text has a value exactly if, line breaks left out, one of the four codecs' grammars admits it, and the value is its letters' bits |
| Decoder.Decode | grpcurl.go:208-224 | it succeeds if and only if, line breaks left out, the text is of one of the four grammars; then its bytes are the letters' bits whichever codec is asked, else the error is the first codec's |
| Metadata.MetadataFromHeaders | grpcurl.go:155-174 | a key is there if and only if some header has that name, and the n-th value under it is that of the n-th header so named; names and values as `HeaderLines` tells them, without taking a line apart |
| HeaderLines.NameMeans | grpcurl.go:158-163 | the key a line is filed under is what stands before its first colon, Unicode white space off both ends, A to Z made a to z and other ASCII as it is |
| HeaderLines.NameOnce | grpcurl.go:158-163 | and no other text is |
| HeaderLines.ValueMeans | grpcurl.go:164-170 | its value is what stands behind that colon, trimmed; under a name that ends in "-bin" it is the bytes if that is base64, and the raw text if not |
| HeaderLines.ValueOnce | grpcurl.go:164-170 | and nothing else is |
| HeaderLines.SpacesAre | grpcurl.go:163-164 | white space is what Unicode calls so |
| Metadata.KeysAreLower | grpcurl.go:163 | no key has a capital ASCII letter, or white space at either end, if lower-casing makes none |
| Metadata.CaseAndSpaceDoNotMatter | grpcurl.go:163-164 | headers that differ in the ASCII case of the names, or in white space around names and values, give the same metadata |
| Metadata.MetadataToString | grpcurl.go:228-258 | the text is one line for every value, keys sorted, values of a key in order; "(empty)" if there are none |
| Metadata.SortedIsUnique | grpcurl.go:233-238 | the order of the lines is a matter of the keys alone |
| Metadata.BeforeMeans | grpcurl.go:238 | keys are ordered by the first character in which they differ, a proper prefix first |
| Metadata.LineParses | grpcurl.go:163-169 | a printed line is read as the key and value it came from: any bytes for a binary key, else ASCII text that is trimmed and on one line |
| Metadata.RoundTrip | grpcurl.go:228-258 | the printed text of any metadata with such keys and values, split into lines and parsed, is the metadata it came from, with per-key value order |
| Metadata.PrintThenParse | grpcurl.go:155-258 | the printer run, its lines given to the parser: the same metadata, except that no metadata comes back as one header named "(empty)" |
| Expand.ExpandHeaders | grpcurl.go:181-204 | it fails if and only if some referenced name is unset, naming such a name; else each header is the result of replacing name after name |
| Expand.SequentialIsSimultaneous | grpcurl.go:192-200 | when no `$` outside references, or in a value other than the last put in, could begin a reference, the repeated replace-all is the one-pass substitution of every reference, repeated names included |
| Expand.TextOfTokens | grpcurl.go:176 | cutting a text into references and the rest loses nothing |
| Expand.WordCharacters | grpcurl.go:176 | a name is made of letters, digits and underscores of ASCII |
| Expand.ReferenceIsFound | grpcurl.go:187-194 | a well-formed reference is found where it stands, and its name is its inside |
| Expand.ValuesAreExpandedAgain | grpcurl.go:193-200 | two references for which the sequential and the one-pass result differ, since the first value spells the second reference |
| Accounts.SignTestIsExact | internal/testing/cmd/bankdemo/db.go:125-128 | from a balance in range, the sign of the wrapped sum tells exactly whether the true sum is in 0..2^31-1 |
| Accounts.Account.NewTransaction | internal/testing/cmd/bankdemo/db.go:122-138 | it succeeds if and only if the exact sum is in range; the balance stays the exact sum of the transactions, numbered 1..n |
| Accounts.OpenKeepsIndex | internal/testing/cmd/bankdemo/db.go:28-37 | a new number keeps the list increasing and bounded, the customers' lists a partition of it, and the customers listed once each |
| Accounts.CloseKeepsIndex | internal/testing/cmd/bankdemo/db.go:74-82 | striking a number from both lists keeps all that |
| Accounts.Ledger.OpenAccount | internal/testing/cmd/bankdemo/db.go:24-51 | the new account gets the next number, joins its customer's list, and every index agrees afterwards |
| Accounts.Ledger.CloseAccount | internal/testing/cmd/bankdemo/db.go:53-84 | not found exactly when not the customer's; closed exactly when the balance is zero; then gone from every index, and nothing else is |
| Accounts.Ledger.Strike | internal/testing/cmd/bankdemo/db.go:74-81 | deleting in place removes exactly that number from exactly those two lists |
| Accounts.Ledger.GetAccount | internal/testing/cmd/bankdemo/db.go:86-96 | it finds exactly the customer's own accounts, and never one that is not there |
| Accounts.Ledger.GetAllAccounts | internal/testing/cmd/bankdemo/db.go:98-108 | every listed number leads to an account, in the order of the list |
| Bank.Server.OpenAccount | internal/testing/cmd/bankdemo/bank.go:19-38 | which requests are refused and why, and that a refusal changes nothing |
| Bank.Server.CloseAccount | internal/testing/cmd/bankdemo/bank.go:40-50 | it succeeds if and only if the customer lists the number and its balance is zero; then that account is gone from balances and list; no balance changes |
| Bank.Server.Deposit | internal/testing/cmd/bankdemo/bank.go:109-142 | it succeeds if and only if source and amount are valid, the customer lists the number, and the sum is at most 2^31-1; then exactly the amount is added to one balance and one transaction to its history; each error changes nothing and has its own condition |
| Bank.Server.Withdraw | internal/testing/cmd/bankdemo/bank.go:144-166 | the same for taking away, where the rest must not be negative |
| Bank.Server.Transfer | internal/testing/cmd/bankdemo/bank.go:168-240 | the first refusal in the order of the checks; else balances and histories end where the two transactions lead, and the answer shows the source after its debit and the destination at the end |
| Transfers.RunIsAccounted | internal/testing/cmd/bankdemo/bank.go:210-232 | in every interleaving every balance is in range and is its first value plus exactly what the transfers have done to it |
| Transfers.Conservation | internal/testing/cmd/bankdemo/bank.go:210-232 | between local accounts, total balance plus amounts debited and not credited is constant over every run |
| Transfers.BalancesDecide | internal/testing/cmd/bankdemo/bank.go:210-232 | in every interleaving a debit is refused exactly if the balance it finds is too small, and a credit exactly if the one it finds would exceed 2^31-1 |
| Transfers.AloneIsBothOrNeither | internal/testing/cmd/bankdemo/bank.go:210-232 | alone, a transfer changes both accounts or neither, unless the destination is another account that would exceed 2^31-1; a self-transfer that succeeds changes nothing |
| Transfers.AloneIsItsSteps | internal/testing/cmd/bankdemo/bank.go:210-232 | a transfer alone is the machine's steps with none between them |
| Transfers.MoneyCanBeStranded | internal/testing/cmd/bankdemo/bank.go:222-232 | a run that debits the source and credits nobody |
| Transfers.EffectsAreOutstanding | internal/testing/cmd/bankdemo/bank.go:210-232 | summed over all accounts, what transfers have done is minus what is outstanding |
| TextFormat.TextRequestParser.Next | format.go:105-123 | each call takes the next text between separators; the last one counts at the end of the data and is dropped on a read error, which is all there is from then on |
| TextFormat.TextRequestParser.ReadBytes | format.go:111 | everything up to and including the first separator, or all that is left with the reader's error |
| TextFormat.RecordsAreSeparated | format.go:81 | two records are told apart by character 0x1E and no other |
| Separated.SplitIsWhole | format.go:105-123 | splitting an input loses nothing and leaves no separator in any text |
| Separated.OnlyPlainComesBack | format.go:160-163 | texts joined by separators come back as they were if and only if none of them holds a separator |
| TextFormat.EndingsAreMessages | format.go:96-100 | no data is one empty message, and a separator at the end stands before one more |
| TextFormat.TextFormatter.Format | format.go:176-213 | a separator before all but the first text printed, one trailing newline less, and a failed message does not count |
| TextFormat.EventHandler.OnReceiveResponse | format.go:495-508 | what is written for a response at each verbosity, printable or not |
| TextFormat.DecimalSpells | format.go:497-504 | the numbers in what is written are the digits that spell them, without needless zeros |
| TextFormat.PrintAll | format.go:495-508 | responses printed one by one are their lines joined by separators |
| TextFormat.ParseAll | format.go:105-127 | calling Next until it fails yields the messages of all texts in order, then the end of input, and counts them |
| TextFormat.PrintThenParse | format.go:160-213 | n messages printed and read back are those n messages, then end of input, and n requests counted |
| AnyCache.AnyResolver.Resolve | format.go:258-311 | a call on its own: the name that counts is what follows the URL's last slash; success is the source's type of that name and files it under the name, each kind of failure is exactly as the source or the registry gives it, and only successes are cached, their extensions registered |
| AnyCache.LastPartOnce | format.go:259-262 | a URL has one such part, so URLs that differ before their last slash share one cache entry |
| AnyCache.RunInv | format.go:258-311 | in every interleaving of calls: cached types are the source's, complete with registered extensions, and stored at most once |
| AnyCache.RunGrows | format.go:299-309 | a cached name is never changed, filled at most once, and at most one message factory is ever made |
| AnyCache.FactoryIsThere | format.go:268-271 | no call comes to run a cached factory while the message factory is missing, though it does so without the lock |
| AnyCache.CallsAreDirect | format.go:258-311 | every finished call ended as asking the source directly would, success cached with all its extensions registered and with the one message factory; the only other end is extensions the registry can refuse |
| AnyCache.OneWriter | format.go:273-274 | at most one call is between the write lock and its release |
| AnyCache.NoDeadlock | format.go:258-311 | while some call is not done some call can go on |
| AnyCache.RunsEnd | format.go:258-311 | a run has at most nine steps a call; so, going on as long as one can, every call ends |
| AnyCache.CachedCallsDoNotLock | format.go:264-271 | a call for a name that is cached as it begins is answered from the cache and never takes the write lock |

## Left out

- ChatRuns.NothingMissed: for agents, as `ChatRuns.IdIsAToken`, `ChatRuns.AgentsAreExclusive` and `ChatRuns.HistoryOrder`, it is about runs that hand out new ids; after a repeated id a new session can take over the map entry of an old one, and two agents can be on one session.
- ChatServer.Server.CloseSession: a handler of `ChatServer` runs without interruption and when no lock it wants is held and no channel it sends to is full; interleaving and waiting are in the state machine.
- ChatServer.Server.SendToAgents: the names in `drop` are those whose context is done when their turn comes.
- Accounts.Ledger.OpenAccount: account numbers and sequence numbers are unbounded, not 64-bit.
- Metadata.MetadataFromHeaders: headers are sequences of Unicode characters, and how letters beyond ASCII are lower-cased is a parameter.
- Metadata.RoundTrip: values of keys that are not binary are ASCII, as HTTP/2 metadata must be; other text the source may trim or fold further.
- FileSource.Collector.AddFile: files are numbered in order of creation, which is what makes the import graph acyclic.
- ProtosetLoader.Loader.Load: on an import cycle the source recurses for ever; the model speaks of acyclic lists, and what WriteProtoset writes is one (`ProtosetLoader.WrittenIsAcyclic`).
- Extensions.Fetcher.Fetch: the registry is a set of extensions, and a descriptor is refused exactly when it is no extension.
- TextFormat.PrintThenParse: marshalling is an abstract function, and unmarshalling is required to undo it on the printed lines.
- AnyCache.CallsAreDirect: the source answers the same each time; which extensions the registry refuses is an abstract predicate.
- Bank.Server.Transfer: how the parties are described in a transaction's text is a parameter; the interleaved form in `Transfers` covers deposits and withdrawals as transfers with one party outside.
- Ledger facts are stated one RPC at a time; `CloseAccount` racing with a deposit on an account pointer obtained earlier is not modelled.
- ChatProgress.NoDeadlock: a listener's goroutine that is itself blocked in a stream send depends on flow control that is not shown, and the last agent takes the session's and the server's lock in one step.
- Session ids are numbers, not their six-digit texts; dates, tokens and message wording are left out.
- `clone`, `flush` and `load` of the bank, which drop balances and the last account number.
- `GetTransactions` filtering by date, `GetAccounts` beyond `getAllAccounts`, authentication interceptors.
- `CreateFileDescriptor` is the construction of a value from its parts and always succeeds when given the dependencies.
- Well-known types' stock values in templates are told apart by name only.
- `addAllFilesToSet` and `addFilesToFileDescriptorList`, which walk the same way as `addFilesToSet`.
- The fallback Any resolver, JSON requests and formatting, `prettify`, `PrintStatus`.
- Dialling, TLS, SPIFFE, reflection, `.proto` parsing and printing, protoset file I/O, command line and timing.
