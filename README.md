# Design patterns: a verified model of the stock pipeline, the team chat, the configuration singleton and the message bridge

This project models, in Dafny, the core of the `design-patterns` repository. It has four parts.

- **Cloud_patterns**: a CQRS stock-trading pipeline.
  - A write model holds the authoritative price and cumulative volume of five symbols. Each command publishes a domain event through an Azure Service Bus event broker.
  - The broker provisions its topics and subscriptions, caches one sender per event type, and wraps each event in a message envelope. It counts published and delivered events.
  - A read model projects the events into a query view: a single record, all records, or the top movers.
  - Subscribers register one processor per event type. The analytics engine keeps a 10-point moving average. The mobile app raises price and volume alerts. The trading dashboard prints one line per event.
- **Mediator**: a team chat. A mediator routes broadcasts, direct messages, role messages and notifications among the registered members. Testers file a bug ticket for messages that mention a bug or an issue. Product managers update a status board when notified.
- **Singleton**: a lazily created configuration manager. It offers get-with-default, upsert and connection-string composition over a settings dictionary.
- **Bridge**: four message types, each with a subject and a body template. Each message is sent through a notification platform that can be switched at run time.

## How the model is built

- **Mutable objects become Dafny classes.** This covers the write model, the read model, the broker, the subscribers, the mediator, team members, the configuration manager and bridge messages. Their dictionaries and lists become `map` and `seq` fields that the methods reassign.
- **Pure computations become functions.** Each method is proved against the matching function. Loops are proved with invariants:
  - the provisioning loops of `EnsureInfrastructureExists`;
  - the member loops of the mediator.
- **Exceptions become values.** A thrown exception is an `Outcome` or `Result` value.
- **Console output becomes data.** A handler that only prints returns the values its line shows: an alert, a dashboard line, or an average. The mediator records a trace of what each member received and did. The bridge records a log of platform calls.
- **Numbers.** C# `decimal` is `real`. A division by a zero decimal is an error path, `DivideByZeroException`, because C# throws there. C# `long` is a 64-bit newtype, and `+=` on it wraps around explicitly.
- **Inputs stand in for the outside world.**
  - Service Bus is reduced to data:
    - the namespace is a set of entities;
    - which admin calls throw is an input set;
    - whether a send throws is an input flag;
    - a successful send appends to an outbox.
  - GUIDs, clock readings and the enumeration order of a `ConcurrentDictionary` are inputs.

Where the source and its written description disagree, the model follows the source.

- **First price event.** The read model stores the first price event of a symbol through the add path. Its change and percentage are 0. No delta is computed against an earlier value.
- **Volume events.** A volume event carries the write model's new cumulative total, not the increment. The read model replaces its volume with it.
- **Re-subscribing.** `SubscribeAsync` appends another processor every time, even for a subscription name already in use. It does not replace the earlier handler.
- **Publishing.** The broker sends one message per publish; it does not fan out. The published counter moves only after a successful send, and a failing send or envelope is rethrown to the publisher. The delivered counter moves once per processor callback whose handler returns normally.
- **Subscription names.** `EnsureInfrastructureExists` provisions subscriptions for the fixed client names `dashboard`, `mobile`, `analytics`, `read-model` and `all-clients`. A subscriber built on `SubscriberBase` uses the name `{name}-{8 GUID characters}-subscription`, which is never among them (`Subscribers.RegisteredSubscriptionIsNotProvisioned`).

## Model

| member | source | states |
|---|---|---|
| Events.WrappingAdd | Cloud_patterns/CQRS/Write/StockWriteModel.cs:50 | `long +=` is exact when the sum is in range, and always congruent to the sum modulo 2^64 |
| Text.ToLower | Mediator/Program.cs:84 | ordinal case folding keeps the length and folds each character on its own |
| Text.ContainsIgnoreCaseWindow | Mediator/Program.cs:208-209 | case-insensitive `Contains` holds exactly when some window of the text equals the pattern ignoring case |
| WriteModel.InitialStocks | Cloud_patterns/CQRS/Write/StockWriteModel.cs:20-28 | the seeded table has exactly MSFT, AAPL, AMZN, GOOGL and TSLA, each filed under its own symbol |
| WriteModel.SetPrice | Cloud_patterns/CQRS/Write/StockWriteModel.cs:33-36 | a known symbol's price becomes the new price and its volume stays; other symbols and an unknown symbol leave the table unchanged |
| WriteModel.AddVolume | Cloud_patterns/CQRS/Write/StockWriteModel.cs:48-50 | a known symbol's volume becomes the wrapped sum and its price stays; nothing else changes |
| WriteModel.PriceEvent | Cloud_patterns/CQRS/Write/StockWriteModel.cs:35-38 | the published price event carries the symbol, the price before the command, the new price and the source "StockWriteModel" |
| WriteModel.VolumeEvent | Cloud_patterns/CQRS/Write/StockWriteModel.cs:52 | the published volume event carries the new cumulative volume and the source "StockWriteModel" |
| WriteModel.VolumeOverflowWraps | Cloud_patterns/CQRS/Write/StockWriteModel.cs:50 | a volume sum that fits in 64 bits is stored exactly; a sum above 2^63 - 1 wraps around to a negative volume, 2^64 below the sum and lower than before |
| WriteModel.CommandsKeepKeys | Cloud_patterns/CQRS/Write/StockWriteModel.cs:31-57 | both commands keep every record filed under its own symbol |
| WriteModel.StockWriteModel.constructor | Cloud_patterns/CQRS/Write/StockWriteModel.cs:14-28 | a new write model holds the seeded table and the broker it was given |
| WriteModel.StockWriteModel.UpdateStockPrice | Cloud_patterns/CQRS/Write/StockWriteModel.cs:31-43 | the table becomes `SetPrice` of the old one before publishing; an unknown symbol publishes nothing; a known one publishes its price event, whose failure is returned with the new price kept |
| WriteModel.StockWriteModel.UpdateStockVolume | Cloud_patterns/CQRS/Write/StockWriteModel.cs:46-57 | the table becomes `AddVolume` of the old one; a known symbol publishes the new total; an unknown symbol publishes nothing |
| ReadModel.ApplyPrice | Cloud_patterns/CQRS/Read/StockReadModel.cs:15-29 | only the event's symbol changes and it is added if new; its current price becomes the new price; the handler fails exactly for a known symbol with a zero previous price |
| ReadModel.ApplyVolume | Cloud_patterns/CQRS/Read/StockReadModel.cs:32-44 | only the event's symbol changes; its volume becomes the event's volume and its timestamp the handling time |
| ReadModel.FirstPriceHasNoChange | Cloud_patterns/CQRS/Read/StockReadModel.cs:19 | the first price event of a symbol records no change, no percentage and no volume |
| ReadModel.PriceUpdateRecordsChange | Cloud_patterns/CQRS/Read/StockReadModel.cs:20-27 | a later price event records the change and a percentage equal to 100 × change / previous price, and keeps the volume |
| ReadModel.VolumeUpdateKeepsPrices | Cloud_patterns/CQRS/Read/StockReadModel.cs:37-42 | a volume event keeps a known symbol's price, change and percentage |
| ReadModel.VolumeRedeliveryIdempotent | Cloud_patterns/CQRS/Read/StockReadModel.cs:39 | applying the same volume event twice equals applying it once |
| ReadModel.OnSymbol | Cloud_patterns/CQRS/Read/StockReadModel.cs:17-18 | the deliveries kept for a symbol all concern that symbol |
| ReadModel.OnSymbolSelects | Cloud_patterns/CQRS/Read/StockReadModel.cs:17-18 | a symbol's stream holds every delivery on that symbol exactly as often as the full stream does, and no other delivery |
| ReadModel.OnSymbolAppend | Cloud_patterns/CQRS/Read/StockReadModel.cs:17-18 | selecting a symbol's stream distributes over concatenation, so the deliveries keep their arrival order |
| ReadModel.ReplayKeyedBySymbol | Cloud_patterns/CQRS/Read/StockReadModel.cs:17-43 | any sequence of deliveries keeps every record filed under its own symbol |
| ReadModel.ReplayRespectsAgreement | Cloud_patterns/CQRS/Read/StockReadModel.cs:17-43 | a symbol's record after a replay depends only on its record before |
| ReadModel.ReplayIsPerSymbol | Cloud_patterns/CQRS/Read/StockReadModel.cs:17-43 | replaying all deliveries and replaying only one symbol's deliveries agree on that symbol |
| ReadModel.Magnitude | Cloud_patterns/CQRS/Read/StockReadModel.cs:61 | the sort key is the absolute value of the percentage |
| ReadModel.InsertByMagnitude | Cloud_patterns/CQRS/Read/StockReadModel.cs:61 | insertion adds exactly the one record (as a multiset) |
| ReadModel.SortByMagnitude | Cloud_patterns/CQRS/Read/StockReadModel.cs:61 | the sort is a permutation of its input |
| ReadModel.InsertBounded | Cloud_patterns/CQRS/Read/StockReadModel.cs:61 | insertion brings in no record above a magnitude bound that the record and the sequence respect |
| ReadModel.InsertKeepsSorted | Cloud_patterns/CQRS/Read/StockReadModel.cs:61 | insertion keeps a sequence ordered by non-increasing magnitude |
| ReadModel.InsertWithMagnitude | Cloud_patterns/CQRS/Read/StockReadModel.cs:61 | insertion puts the record before every record of equal magnitude and reorders nothing else of any magnitude |
| ReadModel.SortIsSorted | Cloud_patterns/CQRS/Read/StockReadModel.cs:61 | `OrderByDescending` yields non-increasing magnitudes |
| ReadModel.SortIsStable | Cloud_patterns/CQRS/Read/StockReadModel.cs:61 | `OrderByDescending` is stable: records of equal magnitude keep their order |
| ReadModel.Take | Cloud_patterns/CQRS/Read/StockReadModel.cs:62 | `Take(count)` is a prefix of length min(max(count, 0), n) |
| ReadModel.TopMoversSpec | Cloud_patterns/CQRS/Read/StockReadModel.cs:58-64 | the top movers: right length, drawn from the records, sorted, ties in snapshot order, and none left out moves more than one returned |
| ReadModel.StockReadModel.constructor | Cloud_patterns/CQRS/Read/StockReadModel.cs:12 | a new read model is empty |
| ReadModel.StockReadModel.HandleStockPriceUpdate | Cloud_patterns/CQRS/Read/StockReadModel.cs:15-29 | the table and the outcome are those of `ApplyPrice`, including the partial update when the division throws |
| ReadModel.StockReadModel.HandleStockVolumeUpdate | Cloud_patterns/CQRS/Read/StockReadModel.cs:32-44 | the table becomes `ApplyVolume` of the old one |
| ReadModel.StockReadModel.GetStock | Cloud_patterns/CQRS/Read/StockReadModel.cs:47-51 | the record of a known symbol, and null exactly for an unknown one |
| ReadModel.StockReadModel.GetAllStocks | Cloud_patterns/CQRS/Read/StockReadModel.cs:53-56 | every record once, in the dictionary's enumeration order |
| ReadModel.StockReadModel.GetTopMovers | Cloud_patterns/CQRS/Read/StockReadModel.cs:58-64 | min(max(count, 0), n) records, sorted by magnitude, stable with respect to `GetAllStocks`, each one a stored record, and no record left out moves more than any record returned |
| ReadModel.TopMoversSorted | Cloud_patterns/CQRS/Read/StockReadModel.cs:61-62 | the top movers come in non-increasing order of absolute percentage |
| ReadModel.TopMoversSubMultiset | Cloud_patterns/CQRS/Read/StockReadModel.cs:60-62 | the top movers are taken from the records, each at most as often as it occurs |
| ReadModel.TopMoversKeepTies | Cloud_patterns/CQRS/Read/StockReadModel.cs:61-62 | among records of equal magnitude, the top movers are the first ones in snapshot order |
| ReadModel.TopMoversAreLargest | Cloud_patterns/CQRS/Read/StockReadModel.cs:60-62 | no record left out of the top movers has a larger absolute percentage than any record returned |
| ReadModel.LeftOutMoveLess | Cloud_patterns/CQRS/Read/StockReadModel.cs:61-62 | cutting a sequence sorted by magnitude leaves nothing after the cut that moves more than anything before it |
| ReadModel.TopMoversAreDrawn | Cloud_patterns/CQRS/Read/StockReadModel.cs:60-63 | every top mover is one of the records it was chosen from |
| ReadModel.SnapshotCovers | Cloud_patterns/CQRS/Read/StockReadModel.cs:53-56 | a snapshot taken in an enumeration order holds every record, has one entry per key, and holds nothing else |
| ReadModel.DistinctCardinality | Cloud_patterns/CQRS/Read/StockReadModel.cs:55 | an enumeration without repetitions has as many entries as the dictionary has keys |
| Broker.TopicsSeparateStockEvents | Cloud_patterns/PubSub/AzureServiceBusEventBroker.cs:103-116 | the two stock events never share a topic with each other or with another event type |
| Broker.SubscriptionName | Cloud_patterns/PubSub/AzureServiceBusEventBroker.cs:125 | the subscription name is the client name with the 13-character suffix |
| Broker.ClientNameOf | Cloud_patterns/PubSub/AzureServiceBusEventBroker.cs:125 | a recovered client name derives the given subscription name |
| Broker.SubscriptionNameRoundTrip | Cloud_patterns/PubSub/AzureServiceBusEventBroker.cs:125 | the client name is recovered from its subscription name |
| Broker.TableSteps | Cloud_patterns/PubSub/AzureServiceBusEventBroker.cs:40-95 | the topic loop followed by the table loops takes exactly the eight provisioning steps, in the source's order |
| Broker.RunStepsEffect | Cloud_patterns/PubSub/AzureServiceBusEventBroker.cs:46-51 | steps that do not throw add exactly their entities, and create exactly those that were missing |
| Broker.RunStepsPresent | Cloud_patterns/PubSub/AzureServiceBusEventBroker.cs:52-55 | steps whose entities all exist change nothing |
| Broker.FirstFailure | Cloud_patterns/PubSub/AzureServiceBusEventBroker.cs:57-61 | the index of the first step whose admin call throws |
| Broker.RunUntilFailureReference | Cloud_patterns/PubSub/AzureServiceBusEventBroker.cs:42-95 | a run takes effect for exactly the steps before the first failing one, and fails iff some step fails |
| Broker.ProvisionSucceeds | Cloud_patterns/PubSub/AzureServiceBusEventBroker.cs:37-98 | with no failing admin call, every required topic and subscription exists, and exactly the missing ones were created |
| Broker.ProvisionIdempotent | Cloud_patterns/PubSub/AzureServiceBusEventBroker.cs:37-98 | a second provisioning run after a successful one creates nothing and changes nothing |
| Broker.ProvisionFailure | Cloud_patterns/PubSub/AzureServiceBusEventBroker.cs:57-61 | a failed run keeps what existed, adds only required entities, leaves a failing required entity uncreated, and fails at a subscription only after both topics exist |
| Broker.CreateMessageFields | Cloud_patterns/PubSub/AzureServiceBusEventBroker.cs:199-217 | the envelope carries the event's id, source, JSON content type, symbol and (for volumes) the volume; it fails only for a zero previous price |
| Broker.PriceChangeIsRatio | Cloud_patterns/PubSub/AzureServiceBusEventBroker.cs:210-211 | the PriceChange property is a ratio: previous × (1 + ratio) = new price |
| Broker.DeliveriesAccountedFor | Cloud_patterns/PubSub/AzureServiceBusEventBroker.cs:139-159 | every received message is either counted as delivered or dropped, and all are counted exactly when none was dropped |
| Broker.EventBroker.constructor | Cloud_patterns/PubSub/AzureServiceBusEventBroker.cs:25-32 | a new broker has no senders, processors or sent messages, and zero counters |
| Broker.EventBroker.EnsureInfrastructureExists | Cloud_patterns/PubSub/AzureServiceBusEventBroker.cs:37-98 | the namespace, the created entities and the outcome are those of the provisioning run `Provision` |
| Broker.EventBroker.EnsureEntities | Cloud_patterns/PubSub/AzureServiceBusEventBroker.cs:42-95 | the two loops compute `RunUntilFailure` over the topic steps and then the subscription table |
| Broker.EventBroker.EnsureEntity | Cloud_patterns/PubSub/AzureServiceBusEventBroker.cs:44-61 | one check-then-create step: it fails exactly for a failing entity, and then nothing changes |
| Broker.EventBroker.SubscribeAsync | Cloud_patterns/PubSub/AzureServiceBusEventBroker.cs:121-175 | appends one processor on the type's topic, through `{clientName}-subscription` |
| Broker.EventBroker.PublishAsync | Cloud_patterns/PubSub/AzureServiceBusEventBroker.cs:180-232 | caches the sender, then sends one message to the type's topic and counts it; a failing envelope or send is returned with nothing sent or counted |
| Broker.EventBroker.ProcessMessage | Cloud_patterns/PubSub/AzureServiceBusEventBroker.cs:139-159 | the delivered counter moves exactly for a non-null event whose handler returns normally |
| Subscribers.ClientId | Cloud_patterns/Subscribers/SubscriberBase.cs:23 | the client id is the name, a hyphen and the first 8 characters of the GUID |
| Subscribers.DistinctGuidsDistinctSubscriptions | Cloud_patterns/Subscribers/SubscriberBase.cs:23 | GUIDs with different first 8 characters give different subscriptions, even for the same name |
| Subscribers.RegisteredSubscriptionIsNotProvisioned | Cloud_patterns/Subscribers/SubscriberBase.cs:23-28 | a subscriber's subscription is never one that `EnsureInfrastructureExists` provisions |
| Subscribers.RegistrationProcessors | Cloud_patterns/Subscribers/SubscriberBase.cs:24-28 | registration starts two processors, prices first, both on the client's subscription and calling the subscriber |
| Subscribers.RegisterSubscriptions | Cloud_patterns/Subscribers/SubscriberBase.cs:21-29 | derives the client id and appends the two processors |
| Subscribers.SubscriberBase.constructor | Cloud_patterns/Subscribers/SubscriberBase.cs:14-19 | construction completes the registration |
| Analytics.TakeLast | Cloud_patterns/Subscribers/AnalyticsEngine.cs:31 | `TakeLast(n)` is a suffix of length min(n, count) |
| Analytics.Record | Cloud_patterns/Subscribers/AnalyticsEngine.cs:20-26 | the new price is appended to its symbol's history, which is created empty if missing; other histories stay |
| Analytics.Report | Cloud_patterns/Subscribers/AnalyticsEngine.cs:29-33 | an average is reported exactly when the history length is a multiple of 10, and it is the average of the last 10 prices |
| Analytics.HistoryIsArrivalOrder | Cloud_patterns/Subscribers/AnalyticsEngine.cs:18-26 | a symbol's history is exactly its events' new prices in arrival order, and exists iff one arrived |
| Analytics.AverageBounds | Cloud_patterns/Subscribers/AnalyticsEngine.cs:31 | the moving average lies between the smallest and the largest price |
| Analytics.SumBounds | Cloud_patterns/Subscribers/AnalyticsEngine.cs:31 | the sum of n prices in [lo, hi] lies in [n·lo, n·hi] |
| Analytics.AnalyticsEngine.constructor | Cloud_patterns/Subscribers/AnalyticsEngine.cs:12-16 | registers the subscriptions and starts with no history |
| Analytics.AnalyticsEngine.OnStockPriceUpdated | Cloud_patterns/Subscribers/AnalyticsEngine.cs:18-34 | the histories become `Record` of the old ones, and the report is `Report` of the symbol's new history |
| Mobile.PercentChange | Cloud_patterns/Subscribers/MobileApp.cs:16 | throws exactly for a zero previous price; otherwise percent × previous = 100 × change |
| Mobile.OnStockPriceUpdated | Cloud_patterns/Subscribers/MobileApp.cs:14-24 | an alert exactly when the move is at least 1 percent; ▲ exactly for a positive percentage; the magnitude is the absolute percentage |
| Mobile.AlertInPriceTerms | Cloud_patterns/Subscribers/MobileApp.cs:14-24 | for a positive previous price: an alert iff the price moved by at least a hundredth of it, pointing up iff it rose |
| Mobile.OnStockVolumeUpdated | Cloud_patterns/Subscribers/MobileApp.cs:26-33 | a volume alert exactly for volumes strictly above 2,000,000 |
| Dashboard.SignPrefix | Cloud_patterns/Subscribers/TradingDashboard.cs:19 | "+" exactly for a non-negative number |
| Dashboard.OnStockPriceUpdated | Cloud_patterns/Subscribers/TradingDashboard.cs:14-20 | throws exactly for a zero previous price; otherwise the line shows the change, a percentage with percent × previous = 100 × change, and their prefixes |
| Dashboard.PrefixesAgree | Cloud_patterns/Subscribers/TradingDashboard.cs:16-19 | for a positive previous price, the change and the percentage get the same prefix |
| Dashboard.PrefixesDisagreeBelowZero | Cloud_patterns/Subscribers/TradingDashboard.cs:16-19 | for a negative previous price, a non-zero change and its percentage get opposite prefixes |
| Dashboard.OnStockVolumeUpdated | Cloud_patterns/Subscribers/TradingDashboard.cs:22-25 | every volume event gives a line with its symbol and volume |
| Pipeline.PercentagesAgree | Cloud_patterns/CQRS/Read/StockReadModel.cs:24 | the read model's, the mobile app's and the dashboard's percentages are equal, and 100 times the envelope's PriceChange ratio |
| Pipeline.ZeroPreviousPriceIsNeverDelivered | Cloud_patterns/PubSub/AzureServiceBusEventBroker.cs:210-211 | a price event with a zero previous price fails to publish, and both subscribers would throw on it |
| Pipeline.VolumeSidesAgree | Cloud_patterns/CQRS/Write/StockWriteModel.cs:50-52 | once the read model applies a published volume event, its volume equals the write model's new total |
| Pipeline.PriceSidesAgree | Cloud_patterns/CQRS/Write/StockWriteModel.cs:35-38 | once the read model applies a published price event, its price and change match the write model's |
| Mediator.ReceiveMessage | Mediator/Program.cs:174-178 | the member receives the message, and a tester also files a ticket exactly when it mentions "bug" or "issue" in any case |
| Mediator.ReceiveDirectMessage | Mediator/Program.cs:180-183 | a direct message is received once, with no ticket |
| Mediator.ReceiveNotification | Mediator/Program.cs:185-188 | the member is notified, and a product manager also updates the status board |
| Mediator.RecipientsOfAppend | Mediator/Program.cs:68-128 | the recipients of a concatenated trace are the concatenated recipients |
| Mediator.MessageRecipients | Mediator/Program.cs:203-213 | one delivery contributes its recipient once as a receiver, and as a ticket filer exactly for a tester and a bug message |
| Mediator.NotificationRecipients | Mediator/Program.cs:222-226 | one notification contributes its recipient once, only as notified |
| Mediator.ReceiveAllReceived | Mediator/Program.cs:72-79 | each recipient of a message receives it exactly once, in order |
| Mediator.ReceiveAllTickets | Mediator/Program.cs:203-213 | the ticket filers are exactly the testers among the recipients when the message mentions a bug, and nobody otherwise |
| Mediator.ReceiveAllNotified | Mediator/Program.cs:72-79 | sending a message notifies nobody |
| Mediator.ReceiveAllFields | Mediator/Program.cs:174-178 | every entry of a message carries the sender's name, the text and the role flag, or is a tester's ticket |
| Mediator.ReceiveAllSpec | Mediator/Program.cs:68-80 | what a message does: receivers, ticket filers, nobody notified, the fields of each entry |
| Mediator.NotifyEachSpec | Mediator/Program.cs:117-128 | a notification reaches every recipient once, in order; only product managers also update the board; nothing is received |
| Mediator.FindByName | Mediator/Program.cs:84 | `List.Find`: the first member whose name equals the given one ignoring case, or none |
| Mediator.DirectEntries | Mediator/Program.cs:82-95 | the first matching member receives the direct message; with no match, the sender is notified "not found" |
| Mediator.DirectMessageRouting | Mediator/Program.cs:82-95 | a direct message files no ticket, and notifies exactly the sender exactly when no name matches |
| Mediator.RoleMessageRouting | Mediator/Program.cs:97-115 | a role message reaches exactly the other members with the role, in order, and notifies the sender iff there is none |
| Mediator.TeamMember.constructor | Mediator/Program.cs:147-152 | a member keeps its name, role and mediator |
| Mediator.TeamMember.SendMessage | Mediator/Program.cs:154-157 | delegates a broadcast to its mediator |
| Mediator.TeamMember.SendDirectMessage | Mediator/Program.cs:159-162 | delegates a direct message to its mediator |
| Mediator.TeamMember.SendMessageToRole | Mediator/Program.cs:164-167 | delegates a role message to its mediator |
| Mediator.TeamMember.NotifyTeam | Mediator/Program.cs:169-172 | delegates a notification to its mediator |
| Mediator.TeamChatMediator.constructor | Mediator/Program.cs:60 | a new mediator has no members and an empty trace |
| Mediator.TeamChatMediator.RegisterColleague | Mediator/Program.cs:62-66 | appends the member, even one already registered |
| Mediator.TeamChatMediator.SendMessage | Mediator/Program.cs:68-80 | the trace grows by what every other member, in registration order, does on receiving the message |
| Mediator.TeamChatMediator.SendDirectMessage | Mediator/Program.cs:82-95 | the trace grows by `DirectEntries` |
| Mediator.TeamChatMediator.SendMessageToRole | Mediator/Program.cs:97-115 | the trace grows by the role-specific deliveries, then the fallback notification if none happened |
| Mediator.TeamChatMediator.DeliverToRole | Mediator/Program.cs:101-109 | the trace grows by the role-specific delivery to every other member with the role, in order, and the flag is set exactly when such a member exists |
| Mediator.TeamChatMediator.NotifyAll | Mediator/Program.cs:117-128 | the trace grows by the notification of every other member, in registration order |
| Singleton.InitialSettings | Singleton/Program.cs:58-65 | the loaded settings are exactly the five keys with their values |
| Singleton.DatabaseKeysStay | Singleton/Program.cs:58-65 | the database keys are present after loading, and no upsert removes them |
| Singleton.UpdateThenGet | Singleton/Program.cs:81-90 | after an upsert the key reads as the new value, every other key reads as before, and no key disappears |
| Singleton.ConnectionStringFields | Singleton/Program.cs:72-79 | the "Database" connection string splits at ';' into the current host, database and user behind their keywords; any other name gives "" |
| Singleton.SplitAfterField | Singleton/Program.cs:76 | splitting at a separator after a field with no separator yields that field first |
| Singleton.ConfigurationManager.constructor | Singleton/Program.cs:54-66 | a new manager holds the initial settings |
| Singleton.ConfigurationManager.GetConnectionString | Singleton/Program.cs:72-79 | the connection string of the current settings |
| Singleton.ConfigurationManager.GetSetting | Singleton/Program.cs:81-84 | the stored value, or "" for a missing key |
| Singleton.ConfigurationManager.UpdateSetting | Singleton/Program.cs:86-90 | inserts or overwrites the one key and keeps the database keys |
| Singleton.LazyConfiguration.Instance | Singleton/Program.cs:47-48 | the first access creates the manager with the initial settings; every later access returns the same object |
| Singleton.InstanceIsShared | Singleton/Program.cs:69 | two accesses return the same object |
| Bridge.ContentOf | Bridge/Program.cs:110-154 | recovered content rebuilds the body it came from |
| Bridge.ContentRoundTrip | Bridge/Program.cs:110-154 | every body carries the content unchanged: it is recovered from the body of each message type |
| Bridge.SubjectIdentifiesType | Bridge/Program.cs:112-151 | the four subjects are distinct, so the subject identifies the message type |
| Bridge.Message.constructor | Bridge/Program.cs:92-95 | a message starts with the platform it was given |
| Bridge.Message.SetPlatform | Bridge/Program.cs:97-100 | later sends go to the new platform |
| Bridge.Message.Send | Bridge/Program.cs:110-154 | exactly one call, to the current platform, with "user@example.com", the type's subject and its body |
| Bridge.SwitchAndSend | Bridge/Program.cs:30-34 | after switching the platform, a send reaches only the new one |

## Left out

- Azure Service Bus SDK:
  - No network I/O, clients, processors, senders, `ProcessErrorAsync`, processor options or `Dispose`.
  - The namespace is a set of entities. Admin failures are an input set, and send failures an input flag.
  - A sender is represented by the topic it is bound to.
- JSON serialisation and deserialisation: a message body is represented by the event it was built from. A null deserialisation is an input of the delivery.
- Concurrency and asynchrony: all code runs sequentially.
  - This leaves out `async`/`await`, `GetAwaiter().GetResult()`, the `ConcurrentDictionary` atomicity of `AddOrUpdate`, and `Parallel.For`.
  - `Lazy<T>` thread safety is left out; only its create-once behaviour is modelled.
- Console output: formatting (`F2`, `F0`, thousands and millions), the alert and report text, and the header lines the mediator prints before routing are not modelled.
- GUID and clock generation: GUIDs are 36-character string inputs and timestamps are inputs.
- Cloud_patterns/DataFeed/StockDataFeed.cs (random prices, delays, cancellation) and the demonstration programs (`Main`, `SetupClientSubscriptions`, `SimulateClientQueries`) are not part of this model. They only drive the system with random prices, delays and console I/O.
- Cloud_patterns/Configuration/AzureConfig.cs is not part of this model: it only reads configuration.
- Bridge platform bodies (Bridge/Program.cs:49-84): they only write to the console. The platforms are the three values `EmailPlatform`, `SmsPlatform` and `PushNotificationPlatform`, not object identities.
- Broker counters: `TotalEventsPublished` and `TotalEventsDelivered` are unbounded naturals. Their 32-bit overflow is not modelled.
- Text.ToLower: folds ASCII letters only. `OrdinalIgnoreCase` and `ToLowerInvariant` also fold non-ASCII letters.
- C# `decimal` rounding: division results are exact reals. Decimal's 28-digit rounding and its overflow are not modelled.
- Record aliasing: `StockReadData` records are values. In the source, `GetStock` and `GetAllStocks` return references to the live objects, which later events mutate in place. The model returns snapshots.
- `StockWriteData` objects are values that a command replaces. They never leave the write model, so nothing can observe the difference.
- Mediator subclasses: `Developer`, `Tester` and `ProductManager` are one `TeamMember` class that dispatches on its role. The overrides are the role cases of `ReceiveMessage` and `ReceiveNotification`.
- Default subscriber handlers: `SubscriberBase.OnStockPriceUpdated` and `OnStockVolumeUpdated` do nothing. They are kept as methods with no effect and no contract.
- `GetTopicName` for other event types: modelled through `OtherKind`, but no such type is published in the source.
