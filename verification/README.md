# A verified model of the dxLink client

dxLink is a market-data protocol: one connection carries many channels, and each channel serves a
feed of events or a market-depth book. This project models the four parts of the client where the
reasoning is, and proves what they keep over every input and every run.

- **The FEED data codec** (`JsonModel`, `FeedEvents`, `DxEvents`, `FeedCodec`, `CompactDecoder`).
  Full data is an array of event objects; compact data is a flat array alternating event types and
  value arrays, read by a scan that can recover from junk, and cut into rows under a schema the
  server announces. JSON is a datatype. Events are coded generically from a table of fields per
  event type, and `DxEvents` is the table of the seventeen types. The loops of the serializer, of
  the scan and of the row cutter are methods proved equal to specification functions.
- **The feed** (`FeedConfiguration`, `DataListeners`, `SubscriptionKeys`, `FeedReplication`). Configuration messages
  are merged by spawned work in any order. Subscriptions live in a local map under a string key, and
  the server's copy is driven by incremental messages, while the channel may close at any moment.
  Decoded events reach listeners through a bounded queue.
- **The client and its channels** (`ChannelModel`, `ClientProtocol`, `ClientObject`,
  `ChannelRequests`, `ConnectionTasks`, `AuthTimers`). Every region of code that holds a lock is one
  step of a state machine, and the steps of openers, router, users, timers and spawned work
  interleave freely. Three steps merge such regions, where nothing that is stated depends on
  it: an answer disarms the timeout and spawns the change of state, which reads the state in a step of
  its own; an opener reads the connection state and the authorization state in one step of
  `ClientProtocol`, which leaves their outcome open (`ChannelRequests` keeps them apart); and a
  configure event looks at the channel and reads the configuration that only it writes. The client's
  and the channel's own objects are classes, and each of their methods is proved to take the
  corresponding steps.
- **The DOM book** (`Floats`, `BookSort`, `DomBook`). Snapshots are validated, stably sorted and cut
  to a configurable depth; the service binds itself to one channel. The stable sort is implemented
  and proved, and comparisons of floats are partial, so that the comparison always has an answer is
  a proof obligation.

Every state machine has two kinds of results: what all its runs keep, and laws that say what each of
its operations does to prices, keys, states, listeners and messages themselves. `Runs` and `Wrappers`
hold what the modules share.

What the model assumes about its surroundings: a server that applies FEED_SUBSCRIPTION messages in
order (reset clears, remove deletes, add inserts or replaces, each by type, source and symbol); a
transport that keeps order and loses nothing that was queued; and for string-valued doubles some
function from strings to floats, which every codec statement takes as a parameter.

Where the code does less than its callers might expect, the model follows the code:

- A sequence of configuration merges is independent of their order exactly when the messages agree
  (`FeedConfiguration.OrderIndependentIffCompatible`).
- Compact data that runs before the first configuration of its type is dropped
  (`FeedConfiguration.ForwardedAt`, `FeedConfiguration.DataCanOvertake`).
- Subscriptions are replicated over every run exactly when every one that has a key can be sent and
  no two share a key while they differ in type, source or symbol
  (`FeedReplication.InStepIffReplicable`). A source that is not a string breaks the first condition;
  a type that holds `#` or `:`, or a source that holds `:`, can break the second.
- An authentication timeout can be published without a call of `send_auth_message` since the last
  answer, exactly when an earlier call has not armed the timeout yet and Authorizing is in force, is
  on its way from a change already spawned, or has been seen by a timer
  (`AuthTimers.UncalledTimeoutIff`). Callers outside the client can also use its public setter; for
  them there is a theorem of its own (`AuthTimers.SetterTimeoutIff`).
- Changes of the authorization state can have gaps, exactly when a writer has read another state than
  the one it replaces (`AuthTimers.ChangesLinkedIff`), and can be told in another order than they were
  made (`AuthTimers.ToldInOrderIff`). Those of the connection state cannot
  (`ConnectionTasks.ChangesAreAChain`).
- A listener of feed data that falls behind by more than the queue holds never hears another event
  (`DataListeners.CatchesUpIff`).
- A channel registered after an answer's sweep, whose opener looks before the answer's change of state
  is written, is asked for by neither, and is not asked for later unless another answer arrives or its
  holder asks (`ChannelRequests.LostIff`, `ChannelRequests.StillAskedIff`).
- Initializing the DOM service is not atomic (`DomBook.RejectionsLeaveStateAlone`).

## Model

| member | source | states |
|---|---|---|
| JsonModel.DoubleConversions | src/feed/events.rs:187-228 | converting a float to a double field and back loses nothing; the other direction does exactly when a number constructor holds NaN or an infinity |
| JsonModel.DoubleRoundTrip | src/feed/events.rs:30-176 | a double survives the wire exactly when it is canonical, and is written as null exactly when it is not |
| JsonModel.NumbersKeepTheirValue | src/feed/events.rs:54-73 | a JSON number is read as its value, in either of its two forms |
| JsonModel.StringsKeepTheirValue | src/feed/events.rs:75-97 | the three special names are read as the three special values, and every other string exactly if it can be read as a float, as that float |
| JsonModel.OthersKeepTheirValue | src/feed/events.rs:99-176 | booleans count as one and zero, null as not a number, and arrays are refused |
| JsonModel.FloatsAreWritten | src/feed/events.rs:30-42 | a finite float is written as a number and every other by its name |
| Floats.ComparisonsAre | src/dom/dom.rs:299-303 | only what is not a number cannot be compared; finite floats compare as their values, between the infinities |
| FeedEvents.CanonicalizeIsIdentity | src/feed/events.rs:30-42 | dropping what turns into null changes an event exactly when it holds a non-canonical double or a null configuration |
| FeedEvents.ValueRoundTrip | src/feed/events.rs:30-176 | every field value that does not turn into null is read back as it was, at its declared type |
| FeedEvents.DecodeFaithfulMembers | src/feed/events.rs:249-286 | any object that carries the event's coded values, with null or nothing for the rest and arbitrary unknown members, reads as the canonical part of the event |
| FeedEvents.EventRoundTrip | src/feed/events.rs:249-817 | writing an event and reading it back keeps exactly its canonical part |
| FeedEvents.DecodedEventIsCanonical | src/feed/events.rs:249-817 | whatever is read is well typed and canonical, and survives every further trip unchanged |
| FeedEvents.TagAloneDoesNotDecode | src/feed/events.rs:249-286 | an object with nothing but its type tag is an event of no type |
| FeedEvents.DecodesIff | src/feed/events.rs:249-817 | exactly which documents are events: a known type under "eventType", every required field a string, and every other known field absent, null, or readable as its type |
| FeedEvents.DecodedMeans | src/feed/events.rs:249-817 | what the event then holds: exactly the fields that are there and not null, each with the value its JSON value has |
| FeedEvents.EncodedMeans | src/feed/events.rs:249-817 | the object written for an event holds its type, its values, and nothing else but nulls where the type does not leave them out |
| DxEvents.DxTable | src/feed/events.rs:249-817 | there are exactly the seventeen event types, and each requires its symbol (a message its text) as a string besides the tag |
| DxEvents.FieldsOfMarketEvents | src/feed/events.rs:290-510 | each of the quote, trade, profile, candle and summary types has fields that are its own |
| DxEvents.FieldsOfOptionEvents | src/feed/events.rs:510-668 | likewise for sales, greeks, theoretical prices, underlyings and series |
| DxEvents.FieldsOfOrderEvents | src/feed/events.rs:670-817 | likewise for orders, configurations and messages |
| DxEvents.DxDataRoundTrip | src/feed/messages.rs:175-248 | data of the client's own event types survives the wire exactly when it is non-empty compact data, or full data with canonical doubles and no null configuration |
| FeedCodec.Serialize | src/feed/messages.rs:175-196 | the flattening loop writes the wire form: event objects, or types and value arrays in alternation |
| FeedCodec.ScanPairs | src/feed/messages.rs:218-236 | the scan, which jumps by two on a match, terminates and finds the same pairs as looking at every adjacent position |
| FeedCodec.PairsAreAtTheStarts | src/feed/messages.rs:218-236 | one batch for every index with a string followed by an array, for no other index, in the order of the indices |
| FeedCodec.PairsOfConcat | src/feed/messages.rs:218-236 | scanning distributes over concatenation unless the cut goes through a pair |
| FeedCodec.JunkIsSkipped | src/feed/messages.rs:218-236 | a junk element that neither splits nor completes a pair changes nothing |
| FeedCodec.ScanOfAlternate | src/feed/messages.rs:186-236 | scanning what was flattened gives back the batches |
| FeedCodec.Deserialize | src/feed/messages.rs:198-248 | on any document: compact if it starts with a pair, otherwise full if every element is an event, otherwise an error |
| FeedCodec.WireMeaning | src/feed/messages.rs:175-248 | what any data reads back as; full and compact are never confused, except that compact without batches becomes full without events |
| FeedCodec.WireRoundTrip | src/feed/messages.rs:175-248 | data survives the wire if and only if it is non-empty compact data or full data of canonical events |
| FeedCodec.ReadingIsStable | src/feed/messages.rs:175-248 | any document that can be read can be written and read again to the same data |
| FeedCodec.CompactOnTheWire | src/feed/messages.rs:186-194 | compact data lies on the wire as its types at the even and its values at the odd positions |
| FeedCodec.ReadingMeans | src/feed/messages.rs:198-248 | what is not an array is refused; an array beginning with a string and an array is compact; any other is full exactly if every element is an event, and one bad element makes it neither |
| CompactDecoder.BuildRow | src/feed/messages.rs:319-332 | the row object holds the last column of every name, and the batch's type as tag whatever the row says |
| CompactDecoder.RowMeans | src/feed/messages.rs:319-332 | the row object has the batch's type, the value of the last column of each name, and nothing else |
| CompactDecoder.EventsOfBatch | src/feed/messages.rs:336-347 | every event of a batch has the batch's type, and there is at most one for each complete row |
| CompactDecoder.UnconfiguredYieldNothing | src/feed/messages.rs:273-284 | batches of types without columns contribute nothing |
| CompactDecoder.DecodeOneBatch | src/feed/messages.rs:286-348 | the cutting loop, with every slice in bounds and the phantom row of an empty batch, yields exactly the events of the complete rows |
| CompactDecoder.CompactToFull | src/feed/messages.rs:262-354 | full data comes out as it is; compact data as the events of its batches, batches of unconfigured types yielding nothing |
| CompactDecoder.PhantomRowYieldsNothing | src/feed/messages.rs:313-347 | the empty row tried for an empty batch never decodes, since every event type requires a field |
| CompactDecoder.NextRow | src/feed/messages.rs:300-316 | the bounds of every row the loop tries lie within the values |
| CompactDecoder.DecodeBatchesConcat | src/feed/messages.rs:271-349 | decoding distributes over concatenation of the batches |
| CompactDecoder.MergeBatches | src/feed/messages.rs:286-348 | two batches of a type decode as one when the first is a number of complete rows |
| CompactDecoder.DecodeRowsConcat | src/feed/messages.rs:286-348 | cutting a batch at any row boundary splits its events |
| CompactDecoder.TrailingValuesIgnored | src/feed/messages.rs:290-300 | values short of a row at the end change nothing |
| CompactDecoder.BadRowRemovesOnlyItself | src/feed/messages.rs:336-347 | a row that is not an event takes only itself out of the result |
| CompactDecoder.RowRoundTrip | src/feed/messages.rs:312-347 | a row laid out from an event reads back as the event exactly when the columns cover its fields and it is canonical, wherever the tag column is, if anywhere |
| CompactDecoder.LayoutRoundTrip | src/feed/messages.rs:286-348 | laying events out row by row and decoding gives the same events in the same order exactly when the columns cover them and they are canonical |
| CompactDecoder.GroupsRoundTrip | src/feed/messages.rs:262-354 | the same for whole data with a batch for each group of events |
| CompactDecoder.CompactAgreesWithFull | src/feed/messages.rs:175-354 | the format does not matter: events sent over the wire as compact data come out as the list that full data carries, exactly when the columns cover them and nothing turns into null |
| CompactDecoder.DecodingIsMonotone | src/feed/messages.rs:273-284 | with fewer configured types the events are a subsequence of those with more |
| CompactDecoder.UnseenTypesDoNotMatter | src/feed/messages.rs:273-284 | configuration for types absent from the data changes nothing |
| FeedConfiguration.FeedListener.MergeTask | src/feed/feed.rs:138-160 | inserting the new columns one by one, in whatever order, amounts to one merge |
| FeedConfiguration.FeedListener.DataTask | src/feed/feed.rs:162-206 | what is forwarded is appended in order: full events, or what the data decodes to under the configuration found; nothing while no columns are known |
| FeedConfiguration.LastMessageWins | src/feed/feed.rs:138-160 | for a fixed order, a type has the columns of the last message that mentions it, and period and format are the last message's |
| FeedConfiguration.SettingsAreTheLast | src/feed/feed.rs:142-146 | period and format are always those of the last message, whether or not it mentions types |
| FeedConfiguration.UnmentionedTypesStay | src/feed/feed.rs:147-157 | a type that no message mentions keeps what it had |
| FeedConfiguration.OrderIndependentIffCompatible | src/feed/feed.rs:138-160 | every order of the merges gives one configuration if and only if the messages agree on period, format and the columns of shared types |
| FeedConfiguration.DisjointMessagesCommute | src/feed/feed.rs:138-160 | in particular for messages of one period and format that mention different types |
| FeedConfiguration.NewTypesKeepDecoding | src/feed/feed.rs:147-157 | configuration for new types never changes how data of known types decodes |
| FeedConfiguration.ForwardedAt | src/feed/feed.rs:130-206 | over every order of merges and data, exactly those batches are decoded whose type was known or has been mentioned by a merge that ran before, under the columns of the last such merge; the others are dropped |
| FeedConfiguration.SameColumnsIff | src/feed/feed.rs:138-206 | for configurations that agree, data finds the same columns after two amounts of work exactly if its type has been mentioned in both or in neither |
| FeedConfiguration.DataCanOvertake | src/feed/feed.rs:189-198 | compact data that runs before the configuration it depends on is dropped, though it arrived later |
| DataListeners.HeardWithoutGaps | src/feed/feed.rs:299-313 | over every run, what a listener has heard is what was forwarded since it was added up to some point, in order and without gaps |
| DataListeners.SentIsForwarded | src/feed/feed.rs:162-206 | everything that is forwarded gets into the queue, in order, and nothing else does |
| DataListeners.NewListenerHears | src/feed/feed.rs:299-313 | a new listener hears what is forwarded from then on, from its first event, and nothing from before |
| DataListeners.CatchesUpIff | src/feed/feed.rs:299-313 | at any moment of any run, a listener can still hear everything if and only if it is behind by no more than the queue holds; otherwise it never hears another event |
| SubscriptionKeys.KeyRoundTrip | src/feed/feed.rs:498-508 | type, source and symbol can be read back from the key exactly when type holds neither separator and source no colon |
| SubscriptionKeys.KeyIsInjective | src/feed/feed.rs:498-508 | such subscriptions have the same key only if they are the same, whatever their symbols |
| SubscriptionKeys.KeyCollidesIffNotPlain | src/feed/feed.rs:498-508 | every other subscription shares its key with a plain one, so no weaker condition will do |
| SubscriptionKeys.KeyExamples | src/feed/feed.rs:504-507 | the form of the two kinds of keys |
| SubscriptionKeys.LookupAgrees | src/feed/feed.rs:469-470 | looking up by key or by triple gives the same answer |
| SubscriptionKeys.InsertKeepsRefinement | src/feed/feed.rs:435-436 | the string-keyed map refines the triple-keyed one under insertion |
| SubscriptionKeys.RemoveKeepsRefinement | src/feed/feed.rs:469-470 | and under removal |
| SubscriptionKeys.RefinedMapIsUnique | src/feed/feed.rs:498-508 | a string-keyed map refines at most one triple-keyed map |
| FeedReplication.EntryKey | src/feed/feed.rs:498-536 | what is sent for a subscription names what it is stored under |
| FeedReplication.EntryRoundTrip | src/feed/messages.rs:60-73 | a subscription that is written is read back |
| FeedReplication.SendableIff | src/feed/messages.rs:60-73 | exactly which values convert to a subscription, and what it says |
| FeedReplication.SubscribeStores | src/feed/feed.rs:422-457 | subscribing on an open channel stores the last value of each key and leaves the others |
| FeedReplication.UnsubscribeRemoves | src/feed/feed.rs:459-480 | unsubscribing on an open channel removes exactly the subscriptions whose key is named |
| FeedReplication.SubscribeReachesServer | src/feed/feed.rs:422-549 | the server then holds what it held and what was named, each triple as the last value with its key says |
| FeedReplication.UnsubscribeReachesServer | src/feed/feed.rs:459-614 | of what the server held exactly the named triples are gone, and the rest is as before |
| FeedReplication.UnsubscribeOfNothing | src/feed/feed.rs:464-479 | an unsubscribe that names no stored key changes nothing and sends nothing |
| FeedReplication.ResetEmpties | src/feed/feed.rs:482-489 | a reset leaves nothing on either side |
| FeedReplication.ConfigureAnnounces | src/feed/feed.rs:491-496 | a configuration is remembered in any state, and announced once, as it is, on an open channel |
| FeedReplication.NotOpenIgnores | src/feed/feed.rs:422-489 | every other event is dropped without a trace unless the channel is open |
| FeedReplication.MessagesSaySomething | src/feed/feed.rs:510-634 | over every run, no message without content is sent |
| FeedReplication.SecondLook | src/websocket_client/channel.rs:114-123 | an open channel queues the message and any other loses it |
| FeedReplication.ClosedFeedIsSilent | src/websocket_client/channel.rs:114-123 | on a closed channel nothing more is ever sent, but for a message past its second look |
| FeedReplication.ChannelAcceptsFeed | src/websocket_client/channel.rs:114-130 | the channel accepts what a feed sends exactly while it is open |
| FeedReplication.InsertAllKeepsInStep | src/feed/feed.rs:422-457 | adding a list locally and its sendable entries remotely keeps the server's map the image of the local values, repeated and keyless values included, separators anywhere as long as no two values collide |
| FeedReplication.DeleteAllKeepsInStep | src/feed/feed.rs:459-480 | removing a list locally, and remotely only what was there, keeps the server's map the image of the local values |
| FeedReplication.NextKeepsInv | src/feed/feed.rs:422-666 | every step of every handler, and every move of the channel in between, keeps the two sides equal up to the message under way |
| FeedReplication.ServerIsInStep | src/feed/feed.rs:422-614 | over every run of events over a replicable set of values, between events and while the channel is not closed, replaying all sent messages gives exactly the local subscriptions under their own type, source and symbol; at most one message is ever lost, only when the channel has closed, and it is all the server lacks |
| FeedReplication.InStepIffReplicable | src/feed/feed.rs:422-614 | every run over a set of values stays in step if and only if every value with a key can be sent and no two of them share a key while they differ in type, source or symbol |
| FeedReplication.PlainIsReplicable | src/feed/feed.rs:498-508 | sendable subscriptions whose type holds neither separator and whose source holds no colon are replicable, whatever their symbols |
| FeedReplication.InStepIsRefinement | src/feed/feed.rs:498-508 | for them, being in step is the refinement of the triple-keyed map by the string-keyed one |
| FeedReplication.UpdateSaysTheSame | src/feed/feed.rs:637-666 | one reset-and-add message built from the local map, in any order and whatever the server held, says the same as the whole history |
| FeedReplication.SubscribedIffSendable | src/feed/feed.rs:422-549 | a subscription with a key is stored; it is sent, and then held by the server as it is, exactly when it converts to an entry |
| FeedReplication.UnsendableSource | src/feed/feed.rs:502-536 | a numeric source gives a key but no entry |
| FeedReplication.UnsendableDiverges | src/feed/feed.rs:502-536 | a value with a key that does not convert leaves a local subscription where the server has none |
| FeedReplication.CollisionDiverges | src/feed/feed.rs:422-508 | any two sendable values with one key and different type, source or symbol leave one local subscription where the server has two |
| FeedReplication.CollidingKeysDiverge | src/feed/feed.rs:422-508 | every subscription that is not plain has such a partner |
| FeedReplication.Feed.TakeEvent | src/feed/feed.rs:422-496 | the first look at the channel: events other than configure are dropped unless it is open |
| FeedReplication.Feed.RecordSubscriptions | src/feed/feed.rs:432-444 | the subscribe loop stores and collects every value that has a key |
| FeedReplication.Feed.DropSubscriptions | src/feed/feed.rs:464-474 | the unsubscribe loop collects a value exactly when its key was there at its turn |
| FeedReplication.Feed.Convert | src/feed/feed.rs:523-540 | values that do not convert are left out and the others keep their order |
| FeedReplication.Feed.Work | src/feed/feed.rs:422-687 | after it, a subscribed key holds its last value, an unsubscribed key is gone, a reset has emptied the map, and the message about it is ready, if anything changed and can be sent |
| FeedReplication.Feed.CheckSend | src/websocket_client/channel.rs:114-123 | the second look at the channel: an open channel lets the message through, any other loses it |
| ChannelModel.StepKeepsInv | src/websocket_client/channel.rs:106-534 | every step of senders, closers, the router and listeners, the clearing of the two listener sets being two steps, keeps the channel's invariant and only adds to its history |
| ChannelModel.RunKeepsInv | src/websocket_client/channel.rs:415-456 | over any run the state only climbs, notices are a gapless chain of at most two climbing changes ending in the current state, queued messages name the channel, and nothing is queued by a send before the channel was opened |
| ChannelModel.StateIff | src/websocket_client/channel.rs:385-440 | after any run a channel is closed exactly if it was ever closed, and open exactly if it was opened and never closed |
| ChannelModel.ChangesAreTold | src/websocket_client/channel.rs:441-455 | every change is told once, to whoever listens to the state then, and nothing else is told |
| ChannelModel.MessagesArePassedOn | src/websocket_client/channel.rs:373-382 | a message that comes in is passed on once, to whoever listens to messages then |
| ChannelModel.ListensIff | src/websocket_client/channel.rs:458-534 | after any run exactly those listen that were added and neither removed nor cleared since; error listeners are never cleared |
| ChannelModel.SendVerdict | src/websocket_client/channel.rs:106-258 | exactly when a send passes its checks, and which error it gets otherwise |
| ChannelModel.ClosedRefusesSends | src/websocket_client/channel.rs:114-123 | a channel that has been closed refuses every send |
| ChannelModel.MessagesMove | src/websocket_client/channel.rs:259-340 | a message that passed the checks is in flight, and then goes to the end of the queue or is dropped |
| ChannelModel.SendsBeginWhileOpen | src/websocket_client/channel.rs:114-123 | a step adds a sender's message only if it begins a send on an open channel, and then at most one |
| ChannelModel.NoSendsAfterClosing | src/websocket_client/channel.rs:106-287 | over any run, once the channel is closed no sender's message gets past the checks, and only those in flight at that moment can still be queued |
| ChannelModel.RunsOnlyAdvance | src/websocket_client/channel.rs:415-456 | no later step lowers the state or takes anything back |
| ChannelModel.OpenedIsNotMovedBack | src/websocket_client/channel.rs:390-440 | requesting an open or closed channel again, or opening a closed one, changes nothing |
| ChannelModel.RetainedIsSmaller | src/websocket_client/channel.rs:481-534 | comparing sizes before and after a removal tells whether the listener was there |
| ChannelModel.Channel.SetState | src/websocket_client/channel.rs:415-456 | only the three allowed moves happen, and exactly the registered listeners are told, with old and new state |
| ChannelModel.Channel.ProcessStatusClosed | src/websocket_client/channel.rs:395-462 | the channel is closed, its listeners have been told of it, and message and state listeners are gone |
| ChannelModel.Channel.Send | src/websocket_client/channel.rs:106-287 | the order of the checks and their errors, and the two errors of the queue; a message is queued, under this channel's id, only if all pass and the queue takes it |
| ChannelModel.Channel.Close | src/websocket_client/channel.rs:312-340 | a closed channel sends nothing; otherwise, if the cancel is taken, it is the last message in the queue and the channel is closed; if not, nothing has changed |
| ChannelModel.Channel.Request | src/websocket_client/channel.rs:343-370 | the request goes out before the state is touched |
| ChannelModel.Channel.ProcessPayloadMessage | src/websocket_client/channel.rs:373-382 | exactly the registered message listeners get the message |
| ChannelModel.Channel.RemoveMessageListener | src/websocket_client/channel.rs:481-489 | the result says whether the listener was there |
| ChannelModel.Channel.RemoveStateChangeListener | src/websocket_client/channel.rs:505-513 | the result says whether the listener was there |
| ChannelModel.Channel.RemoveErrorListener | src/websocket_client/channel.rs:529-534 | the result says whether the listener was there |
| ClientProtocol.NextKeepsInv | src/websocket_client/client.rs:179-289 | every step of openers, router, users and reconnects keeps the client's invariant and only moves it forward |
| ClientProtocol.RunsOnlyAdvance | src/websocket_client/client.rs:179-289 | the registry only grows and every channel in it only moves forward, reconnects included |
| ClientProtocol.IdsAreUnique | src/websocket_client/client.rs:190-232 | ids are positive and never reused, every channel sits under its own id below the next one, and every waiting entry belongs to a registered channel or to an opener between its two insertions |
| ClientProtocol.IdsAreConsecutive | src/websocket_client/client.rs:190-195 | ids are given out one after the other from 1 |
| ClientProtocol.OpenedMeansReceived | src/websocket_client/client.rs:439-451 | a channel counts as opened only after a CHANNEL_OPENED for that very channel |
| ClientProtocol.OpenedIffReceived | src/websocket_client/client.rs:424-451 | and it does exactly if one was processed while the channel was registered |
| ClientProtocol.WokenIffOpened | src/websocket_client/client.rs:238-285 | whenever the router is at rest, a waiting opener has been woken if and only if a CHANNEL_OPENED for its channel has been processed |
| ClientProtocol.WaitedMeansOpened | src/websocket_client/client.rs:238-289 | an opener that waited returns its channel only if a CHANNEL_OPENED for its own id was processed, and the channel is never still requested |
| ClientProtocol.OpenersAreExplained | src/websocket_client/client.rs:238-289 | over every run, an opener returns early only if it found the client not ready, fails only if its request was not sent or its time was up, and waits only after having found the client ready and asked |
| ClientProtocol.OpeningSucceeds | src/websocket_client/client.rs:179-289 | from every state the client can be in, a new opener that finds it ready and is answered gets its channel, open |
| ClientProtocol.ConfirmingChangesNoChannel | src/websocket_client/client.rs:266-269 | opening the channel once more before returning never changes it |
| ClientProtocol.SignalledAtMostOnce | src/websocket_client/client.rs:444-451 | no opener is signalled twice, and a waiting one has been or still can be |
| ClientProtocol.ChannelsKeepTheirInvariant | src/websocket_client/client.rs:668-672 | whatever the rest of the client does, every registered channel's history is a climbing chain of at most two changes and its messages name it |
| ClientProtocol.ClosedChannelsSendNothing | src/websocket_client/channel.rs:106-287 | whatever the rest of the client does, a closed channel stays closed and no sender's message is added to what was queued or in flight |
| ClientProtocol.RouteIsLocal | src/websocket_client/client.rs:424-476 | a message leaves state, log, waiting opener and signals of every other channel as they were |
| ClientProtocol.RouteMeans | src/websocket_client/client.rs:424-476 | what one message does: nothing for unregistered channels and errors; otherwise it is passed on to whoever listens on its channel, and a CHANNEL_OPENED opens the channel and wakes its opener |
| ClientProtocol.ReconnectChangesNothing | src/websocket_client/client.rs:668-672 | a reconnect leaves every channel as it is |
| ClientProtocol.RouteDependsOnItsChannel | src/websocket_client/client.rs:424-476 | what a message does to its channel depends on nothing else in the registry |
| ClientProtocol.RoutingIsIsolated | src/websocket_client/client.rs:424-476 | after any sequence of messages every channel is exactly as the messages addressed to it alone would have made it |
| ClientProtocol.ConnectionMessagesReachNoChannel | src/websocket_client/client.rs:424-476 | in any run no channel is registered under 0, and a message for the connection changes nothing in the registry |
| ClientObject.ClientRegistry.AllocateId | src/websocket_client/client.rs:190-195 | the id returned is the next one, and the next one moves on |
| ClientObject.ClientRegistry.ProcessMessage | src/websocket_client/client.rs:424-476 | routing on the objects is the routing of the protocol, and only the addressed channel's object is touched |
| ClientObject.ClientRegistry.ReconnectSweep | src/websocket_client/client.rs:668-672 | going over the channels in any order is the sweep of the protocol |
| ClientObject.ClientRegistry.ChannelsToRequest | src/websocket_client/client.rs:585-604 | after authorization, if connected, exactly the requested channels are asked for, each once |
| ClientObject.OpenUninterrupted | src/websocket_client/client.rs:179-232 | the three regions of an opener that is not interrupted are three steps of the protocol, and yield a new channel object |
| ChannelRequests.RequestedAsOften | src/websocket_client/client.rs:232-252 | over every run, with answers processed concurrently and channels opened and closed at any moment, a channel has been asked for as often as, since it was registered, a sweep has come to it while it was still requested, its opener has asked, or its holder has |
| ChannelRequests.RequestedIff | src/websocket_client/client.rs:582-604 | so it has been asked for exactly if one of these has happened |
| ChannelRequests.OpenersAskOnlyWhenReady | src/websocket_client/client.rs:238-252 | over every run, an opener is about to ask only if it has found the client connected and authorized |
| ChannelRequests.HoldersAsk | src/websocket_client/channel.rs:343-370 | the holder's request asks in every state of the channel, and one sent as a message exactly while it is open |
| ChannelRequests.SweepsReachAll | src/websocket_client/client.rs:585-604 | a sweep that is over has asked for every channel that was registered when it began, unless the channel was opened or closed before the sweep came to it |
| ChannelRequests.LostIff | src/websocket_client/client.rs:232-240 | while connection and authorization stay, a channel whose opener has finished is never asked for exactly if no sweep has found it still requested, its holder has not asked, and the authorization was not written when its opener looked |
| ChannelRequests.RequestIsLost | src/websocket_client/client.rs:582-604 | a run that ends connected and authorized, with no answer under way, and with a registered channel still requested that nobody has asked for |
| ChannelRequests.StillAskedIff | src/websocket_client/client.rs:568-604 | at any moment of any run, a channel not asked for whose opener has finished can still be asked for, without another answer and without its holder, if and only if it is still requested and the processing of some answer is not over |
| ChannelRequests.AnAnswerHelps | src/websocket_client/client.rs:568-604 | another authorizing answer makes it possible again that a channel still requested is asked for |
| ChannelRequests.AskedTwice | src/websocket_client/client.rs:412-498 | an authorizing message for the connection is processed twice in a row, asking twice for a channel that stays requested and not at all for one that is opened or closed |
| ConnectionTasks.NextKeepsInv | src/websocket_client/client.rs:320-337 | every interleaving of spawned changes and added listeners keeps the chain |
| ConnectionTasks.ChangesAreAChain | src/websocket_client/client.rs:320-337 | the changes start from NotConnected, each starts where the last one ended, none is idle, and the last ends in the current state |
| ConnectionTasks.ListenersSeeAChain | src/websocket_client/client.rs:320-337 | every listener, whenever added, hears a gapless run of changes ending with the latest |
| ConnectionTasks.WritesTakeEffect | src/websocket_client/client.rs:324-332 | only a spawned change that runs changes the state, to the one it was spawned for, and is recorded exactly if that is another |
| ConnectionTasks.ListenersHearAll | src/websocket_client/client.rs:320-337 | over every run, a listener has been told exactly the changes told since it was added |
| ConnectionTasks.ConnectionCell.SetConnectionState | src/websocket_client/client.rs:320-337 | the loop over the listeners tells each of them the one change, in any order, and nobody when nothing changes |
| AuthTimers.NextKeepsInv | src/websocket_client/client.rs:576-743 | arming, answers and timers firing in any order keep the timeout armed exactly between an arming and the answer or timeout after it |
| AuthTimers.TimeoutsNeverExceedCalls | src/websocket_client/client.rs:696-743 | there are never more published timeouts than calls past the empty-token check |
| AuthTimers.ArmedBetween | src/websocket_client/client.rs:576-743 | between a timeout or an answer and the next timeout some call has armed the timeout, so an answer silences every timer until then |
| AuthTimers.CallsAreNotEnough | src/websocket_client/client.rs:700-743 | a run in which a timeout follows an answer although no call was made since |
| AuthTimers.TimeoutPossibleIff | src/websocket_client/client.rs:700-743 | at any moment of any run, a further timeout without a further call is possible if and only if the timeout is armed or will be by a call under way, and a timer has seen Authorizing or can still do so |
| AuthTimers.UncalledTimeoutIff | src/websocket_client/client.rs:700-743 | in particular, once answered or fired, if and only if a call is between its token check and its arming, and Authorizing has been seen, is the state, or is on its way from a change already spawned |
| AuthTimers.SetterTimeoutIff | src/websocket_client/client.rs:339-354 | if callers may also use the public setter of the state, the call under way is enough |
| AuthTimers.WhatIsSpawned | src/websocket_client/client.rs:568-743 | a refusal, a disconnect and a published timeout each spawn the change to Unauthorized, an acceptance to Authorized, a call with a token to Authorizing |
| AuthTimers.SpawnedByStep | src/websocket_client/client.rs:568-743 | and nothing else spawns a change |
| AuthTimers.ChangeTakesEffect | src/websocket_client/client.rs:339-348 | a spawned change that runs leaves its state behind |
| AuthTimers.StateNeedsAsking | src/websocket_client/client.rs:339-348 | over every run, the state is only what some step has asked for, or was from the start |
| AuthTimers.AuthorizedNeedsAnswer | src/websocket_client/client.rs:568-743 | without the public setter, the client becomes authorized only after an answer that says so, and authorizing only after a call with a token |
| AuthTimers.ChangesLinkedIff | src/websocket_client/client.rs:339-348 | over every run, the changes of the authorization state are linked if and only if every write replaces the very state its writer had read |
| AuthTimers.ToldInOrderIff | src/websocket_client/client.rs:348-352 | over every run, listeners are told of the changes in the order in which they were made if and only if no notification is made while that of an earlier change is still waiting |
| AuthTimers.NoticesChain | src/websocket_client/client.rs:339-354 | under both conditions listeners are told a gapless chain from Unauthorized, and all of it once nothing is left to be told |
| AuthTimers.AuthChangesNeedNotChain | src/websocket_client/client.rs:339-348 | a run of a call and its answer in which both changes start from the same old state |
| AuthTimers.NoticesCanOvertake | src/websocket_client/client.rs:348-352 | a run of a call and its answer in which linked changes are told in the opposite order |
| AuthTimers.AuthCell.Fire | src/websocket_client/client.rs:721-743 | a timer publishes exactly if it saw Authorizing and the timeout is still armed, and then disarms it |
| AuthTimers.AuthCell.ProcessAnswer | src/websocket_client/client.rs:568-620 | every answer disarms; an acceptance spawns the change to Authorized and a refusal the change to Unauthorized, forgetting the token; any other state is an error and spawns nothing |
| AuthTimers.AuthCell.ReadOldState | src/websocket_client/client.rs:343-346 | a spawned change ends at once if the state is the wanted one already |
| AuthTimers.AuthCell.WriteNewState | src/websocket_client/client.rs:348 | otherwise it overwrites whatever the state is by then |
| BookSort.ComparisonIsTotal | src/dom/dom.rs:299-303 | valid entries can always be compared, and their prices order them totally |
| BookSort.SortIsPermutation | src/dom/dom.rs:299-303 | sorting loses and adds nothing |
| BookSort.SortIsSorted | src/dom/dom.rs:299-303 | prices fall along the sorted bids and rise along the sorted asks |
| BookSort.BeatingMeans | src/dom/dom.rs:299-303 | a bid is better by a higher price and an ask by a lower one |
| BookSort.SortIsStable | src/dom/dom.rs:299-303 | at every price the entries keep their order of arrival |
| BookSort.StableSortIsUnique | src/dom/dom.rs:299-303 | two ordered lists with the same entries in the same order at every price are equal, so any stable sort gives this result |
| BookSort.SortOfSorted | src/dom/dom.rs:299-303 | sorting what is sorted changes nothing |
| BookSort.SortSide | src/dom/dom.rs:299-303 | the sorting loop, in which every comparison has an answer, is the stable sort |
| DomBook.FirstFaultIsFirst | src/dom/dom.rs:331-356 | a side is rejected exactly when an entry is not valid, and the error names the first one and its first fault |
| DomBook.KeptIsTheBest | src/dom/dom.rs:299-313 | kept and dropped entries together are the snapshot's, as many are kept as fit, no dropped entry beats a kept one, and equal prices keep their order |
| DomBook.SnapshotStoresTheBest | src/dom/dom.rs:277-320 | an accepted snapshot stores, of each side, as many entries as fit, bids falling and asks rising in price, none that was not there, nothing left out being better than anything kept; time, sequence and channel are the snapshot's, and no setting changes |
| DomBook.SnapshotVerdict | src/dom/dom.rs:277-356 | exactly when a snapshot is accepted and which error it gets otherwise: the channel first, then the first unsound bid, then the first unsound ask |
| DomBook.ConfigTakesEffect | src/dom/dom.rs:238-266 | exactly when a configuration is accepted; then it is what the service announces, its depth is what the next snapshot is cut to, and the book stays |
| DomBook.InitializeVerdict | src/dom/dom.rs:159-227 | exactly when an initialization succeeds and which error it gets otherwise |
| DomBook.SetupTakesEffect | src/dom/dom.rs:159-227 | what is announced, what is in force afterwards, and that the book is empty, also if sending fails |
| DomBook.NewServiceAnnounces | src/dom/dom.rs:62-88 | the settings of a new service |
| DomBook.SmallerDepthIsPrefix | src/dom/dom.rs:305-311 | a smaller depth keeps a prefix of what a larger one keeps |
| DomBook.ReapplyingChangesNothing | src/dom/dom.rs:277-320 | the stored book, sent back as a snapshot, is accepted and changes nothing |
| DomBook.AcceptedIff | src/dom/dom.rs:277-356 | a snapshot is accepted exactly when its channel fits and all its entries have finite prices and finite non-negative sizes |
| DomBook.BookIsAlwaysOrdered | src/dom/dom.rs:159-320 | after any calls, failing ones included, both sides are ordered and valid and no longer than the depth at the last accepted snapshot |
| DomBook.ChannelNeverChanges | src/dom/dom.rs:159-320 | once bound, the service stays bound to its channel over every run |
| DomBook.RejectionsLeaveStateAlone | src/dom/dom.rs:159-320 | rejected configurations and snapshots change nothing; a rejected initialization changes nothing if and only if its channel is refused outright, or the service was bound before and either the setup names another channel or there is nothing to set up and nothing in the book |
| DomBook.RefusedSetupBinds | src/dom/dom.rs:178-198 | a new service that refuses a setup for another channel is bound to the requested one all the same |
| DomBook.FailedSendClearsBook | src/dom/dom.rs:205-227 | an initialization that cannot be sent has cleared the book of a bound service |
| DomBook.DomService.Initialize | src/dom/dom.rs:159-227 | the whole new state, the error and the message sent, for every combination of bound channel, requested channel and setup |
| DomBook.DomService.HandleConfig | src/dom/dom.rs:238-266 | an accepted configuration replaces the four settings and binds the channel; the book stays |
| DomBook.DomService.ValidateEntries | src/dom/dom.rs:331-356 | the loop with early return finds the first fault, and none exactly when all entries are valid |
| DomBook.DomService.HandleSnapshot | src/dom/dom.rs:277-320 | both sides are checked before anything is stored, and what is stored is the best of each side, best first, up to the depth |

## Left out

- JSON text, and how serde maps it to structs: documents are values, a struct is read by its field table, and the positional array form and numeric tags that serde also accepts are not modelled.
- Reading a double from a non-empty JSON object (src/feed/events.rs:99-141), which exists for a private representation of serde_json; in the model it fails.
- Rounding of integers above 2^53, the sign of zero, and float parsing and printing: finite floats are reals.
- CompactDecoder.CompactToFull: requires non-empty field lists, since the code divides by their length (src/feed/messages.rs:290) and panics on an empty one.
- FeedReplication.ServerIsInStep: stated for replicable sets of values, because for every other set it is false; `InStepIffReplicable` is the exact condition.
- FeedReplication.Feed.CheckSend: the queue's refusal of a message and the five-second send timeout are not steps of the feed; transport is assumed to take what passes the check.
- AuthTimers.ArmedBetween: speaks of the moment at which a call arms the timeout (src/websocket_client/client.rs:717-719), not of the call itself, because the latter is false; `CallsAreNotEnough` is the run and `UncalledTimeoutIff` the exact condition.
- FeedConfiguration.ForwardedAt: the events of two data messages whose work overlaps can interleave on their way to the listeners; what each of them contributes is modelled, their mixture is not.
- AuthTimers.AuthCell.ProcessAnswer: the requests for channels that follow an authorizing answer are `ClientObject.ClientRegistry.ChannelsToRequest` and the module `ChannelRequests`.
- ChannelRequests.RequestedIff: a request counts as made when its sender tries to hand it over; that this can fail is not modelled.
- DataListeners.CatchesUpIff: the number of events the queue holds is a parameter, because the library may hold more than the hundred it is asked for; that a clone of a feed has a queue of its own, to which nothing is forwarded, is not modelled.
- ConnectionTasks.ConnectionCell.SetConnectionState: the method is the body without interruption; listeners added during it are covered by the state machine.
- ChannelModel.Channel.Send: whether a payload decodes as its message type, and whether the queue takes the message in time, are parameters; the fields of the message bodies are not modelled.
- ClientObject.ClientRegistry.AllocateId: ids are unbounded, so their wrap-around after 2^64 openings is not modelled.
- ClientObject.OpenUninterrupted: sharing of one channel's state by clones of its handle is the identity of the object; the clones themselves are not modelled.
- DomBook.DomService.HandleSnapshot: the conversion of the depth to a machine word is that of a 64-bit platform.
- DomBook.DomService.Initialize: whether the connection takes the setup message is a parameter, and the channel id inside it is the only part of the transport that is modelled.
- Claims the code does not support: a CHANNEL_CLOSED message does not close a channel locally, channel errors reach no channel listener, and reconnecting does not dial again.
- Reconnect counters, limits and backoff, disconnecting, transport closing, and the validation of SETUP responses.
- Sockets and the connector (src/websocket_client/connector.rs), keepalive, clocks, sleeping, tracing, UUIDs and WASM; src/core/scheduler.rs is not part of the crate that is built.
- The unused handlers of configuration and data messages in src/feed/feed.rs and the batching options that no code reads.
- Texts of errors, builders, accessors and display code.
