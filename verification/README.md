# Pulsar Node binding: callbacks, ownership and codecs

A Dafny model of the parts of the Apache Pulsar client for Node.js in which something can go wrong
only across several functions or threads, and proofs of what those parts guarantee.

The binding sits between the C++ Pulsar client, whose threads deliver messages, results and key
requests, and the single JavaScript thread. The two meet in thread-safe functions: counted handles
with a call queue that the main thread drains and finally finalizes. Everything that is handed over
(a listener record, a promise, a raw message, a stack frame) must be used only while it exists and
given back exactly once, in every interleaving.

| file | what it models |
|---|---|
| `ThreadSafeFunction.dfy` | the Node-API thread-safe function: tokens, queue, finalizer |
| `Deferred.dfy` | `ThreadSafeDeferred`, statement by statement, against an atomic one-shot promise |
| `AsyncOperations.dfy` | `receive`, `batchReceive` and their like: contexts, deferreds, raw objects |
| `ListenerProtocol.dfy` | the consumer listener as a step system with any number of threads |
| `ListenerInvariant.dfy`, `ListenerSafety.dfy`, `ListenerProgress.dfy` | its invariant, what it guarantees, and its progress |
| `ListenerRuns.dfy` | what it does, read off the steps of its runs |
| `ListenerHypothesis.dfy`, `ListenerLifetime.dfy` | why its one hypothesis is exact, and exactly when collecting the Consumer is safe |
| `ListenerObjects.dfy` | the listener record and the `Consumer` object, method by method |
| `ReaderProtocol.dfy`, `ReaderProgress.dfy`, `ReaderRuns.dfy`, `ReaderLifetime.dfy`, `ReaderObjects.dfy` | the reader's listener, in the same way |
| `KeyReader.dfy` | the crypto key reader: direct and queued questions |
| `LoggerSlot.dfy` | the process-wide log handler |
| `JsValue.dfy` | JavaScript values and Node-API's number conversions |
| `ConsumerConfig.dfy` | `InitConfig` and `NewInstance` up to the subscribe call |
| `ConsumerOptions.dfy` | what `InitConfig` makes of each option, by its name and for all its values |
| `SchemaInfo.dfy` | schemas to and from JavaScript objects |
| `Failover.dfy` | the `serviceUrlProvider` option |
| `Wire.dfy`, `UserEvent.dfy`, `UserEventCodec.dfy` | the protobuf wire format and the generated `UserEvent` codec |

## How concurrency is modelled

A protocol is a datatype of states, a datatype of atomic steps, `Enabled`, and `Next`. A run is a
list of steps that are enabled one after the other (`Legal`, `After`); theorems quantify over every
run, and so over every interleaving. A step that would touch freed memory, release a token nobody
holds, set a promise twice or delete something twice raises `fault`. The theorems say that no run
raises it, with one exception, whose exact condition is proved: the raw pointer to the Consumer or
Reader object outlives what keeps the object alive, and following it after the object was collected
raises `stale` beside `fault`. What is taken from the environment is written where it is used:

- no Node environment is torn down, and memory is sequentially consistent;
- each C callback fires exactly once; `Deferred.Serial` is the consequence used, and
  `Deferred.OverlapFaults` shows that nothing less will do;
- the main thread never enters a listener, and messages are dispatched only for a consumer or reader
  that the C++ client has created;
- when the consumer's `Cleanup` releases its token, no thread is between entering the listener and
  its `Acquire` (`ListenerProtocol.Hypothesis`); `PauseHypothesisIsNeeded` shows that nothing less will do;
- for the reader, no thread is in that place when the record is finalized and none enters afterwards
  (`ReaderProtocol.Hypothesis`); `ReaderLifetime.FinalizeHypothesisIsNeeded` and
  `ReaderLifetime.EnterHypothesisIsNeeded` show that both parts are needed.

## Findings

- After `close` nothing but JavaScript's own references keeps a Consumer alive, while queued calls and
  unsettled handlers still hold a raw pointer to it: collecting it is safe for every continuation if
  and only if no thread is about to queue a call and no call is queued, pending or rejected
  (`ListenerLifetime.CollectIsSafeIffUnneeded`). `ListenerLifetime.ForgottenWhileQueued` and
  `ListenerLifetime.ForgottenWhilePending` reach states in which it is not.
- A listener record keeps its pointer to the Reader after `close`, and nothing pauses the dispatch:
  collecting the Reader is safe for every continuation if and only if the thread-safe function has
  begun to close or the dispatching thread is held up for good
  (`ReaderLifetime.CollectIsSafeIffUnreached`). `ReaderLifetime.ForgottenWhileQueued` reaches a state
  in which it is not.
- The C client is given C strings, so a topic that begins with a NUL, and an empty string among the
  topics, are accepted and subscribed to as an empty topic: `ConsumerConfig.HandedOverNonEmpty` states
  the exact condition, `ConsumerConfig.EmptyTopicIsSubscribed` and `ConsumerConfig.EmptyTopicInList`
  give instances.
- InitConfig can be left by an exception: there is no argument, a schema or property cannot be read, a
  `cryptoKeyReader` wraps no native reader, or the C++ client throws at the sticky ranges.
  `ConsumerConfig.VerdictOfConfiguration` states exactly when. The listener's token is given back, but
  the deferred that was created for the promise is never decided and keeps its own token and itself
  for good (`ConsumerConfig.NewInstance`, `Deferred.UndecidedForGood`, `ListenerSafety.ThrownForGood`).
  `ConsumerConfig.MissingConfigThrows`, `ConsumerConfig.ForeignKeyReaderThrows` and
  `ConsumerConfig.SymbolPropertyThrows` give instances.
- A reader handler that throws or rejects is never signalled, and its dispatch thread is held up for
  good (`ReaderProgress.AbandonedForGood`); in every maximal run the thread comes back if and only if
  the message was not handed over or its handler returned or fulfilled
  (`ReaderProgress.ComesBackIffHandlerFinishes`). `ReaderProgress.HandlerThrew` and
  `ReaderProgress.PromiseRejected` reach such states.
- The reader's record may be finalized while a message is being dispatched:
  `ReaderLifetime.CloseMeetsDispatch` reaches a state in which only the hypothesis prevents it.
- The error for a bad secondary names its index except when the fault lies in its authentication
  object, whose error text names no field: `Failover.BuildServiceInfoProvider` states the exact
  condition and `Failover.UnnamedSecondary` gives an instance.
- A schema property key with a NUL in it is cut short by `NewObject`: `SchemaInfo.SchemaRoundTrip`
  holds if and only if there is none, and `SchemaInfo.NulKeyIsLost` gives an instance.
- The `metadata` object that the key reader hands to JavaScript shows what the library gave if and
  only if no name is `__proto__` or contains a NUL, because properties are set by C string and not
  defined: `KeyReader.MetadataIsShownIffPlain`, with `KeyReader.ProtoIsLost` as an instance.
- The hypothesis on `Cleanup` is exact: if a thread is still on its way to `Acquire` when the token is
  released, some continuation uses the deleted record (`ListenerHypothesis.PauseHypothesisIsNeeded`),
  and `ListenerHypothesis.CloseMeetsDispatch` reaches that situation.
- `encodeDelimited` on a writer right after a `fork` of the caller's does not fork again and ends the
  caller's fork: the second clause of `UserEventCodec.EncodeDelimited`.

## Model

| member | source | states |
|---|---|---|
| `Deferred.RunRefinesPromise` | src/ThreadSafeDeferred.cc:49-102 | over every run: no use after free, settled at most once and with the outcome of the run's first call, one release, the resolver run exactly when it settles the promise, alive until finalized |
| `Deferred.StepRefines` | src/ThreadSafeDeferred.cc:60-98 | each statement of the code is a step of an atomic one-shot promise or invisible to it, and JavaScript has been given exactly what the promise was decided to be |
| `Deferred.StepInv` | src/ThreadSafeDeferred.cc:60-98 | the invariant (untouched, one call in progress at a known statement, or decided) is kept by every step of every thread |
| `Deferred.InternalStepsEnd` | src/ThreadSafeDeferred.cc:60-98 | every statement the code executes lowers a rank, so no promise is kept busy for ever |
| `Deferred.DecidedIsDelivered` | src/ThreadSafeDeferred.cc:60-98 | a decided promise with no step left to take has been settled, with the first call's outcome |
| `Deferred.UndecidedForGood` | src/ThreadSafeDeferred.cc:49-78 | over every run without a Resolve or Reject: unsettled, its token unreleased, holding itself |
| `Deferred.OverlapFaults` | src/ThreadSafeDeferred.cc:80-98 | the check is not atomic with the release: whenever a call begins while another one has not written its fate yet, it passes its check and completing both releases the token twice; with StepInv, that is exactly what must not happen |
| `Deferred.CallIsItsSteps` | src/ThreadSafeDeferred.cc:86-98 | one uninterrupted Resolve or Reject equals its statements taken in a row |
| `Deferred.ThreadSafeDeferred.New` | src/ThreadSafeDeferred.cc:49-53 | a fresh deferred: undecided, one token, holding itself |
| `Deferred.ThreadSafeDeferred.Resolve` | src/ThreadSafeDeferred.cc:80-84 | throws and changes nothing if decided, else decides undefined and releases |
| `Deferred.ThreadSafeDeferred.ResolveWith` | src/ThreadSafeDeferred.cc:86-91 | the same with a value callback |
| `Deferred.ThreadSafeDeferred.Reject` | src/ThreadSafeDeferred.cc:93-98 | the same with an error message |
| `Deferred.ThreadSafeDeferred.IsDone` | src/ThreadSafeDeferred.cc:100-102 | true exactly if decided |
| `Deferred.ThreadSafeDeferred.RunFinalizer` | src/ThreadSafeDeferred.cc:61-78 | settles once with what the fields say and drops the reference to itself; a value callback that throws leaves the promise unsettled and the object alive |
| `AsyncOperations.OwnershipOfResults` | src/Consumer.cc:262-317 | over all runs of any number of operations: each context deleted exactly when its callback fires, one outcome per deferred, each raw object adopted or freed exactly once when its promise is delivered and not before |
| `AsyncOperations.NothingIsLost` | src/Consumer.cc:262-317 | an operation whose callback fired and whose deferred has nothing left to do is settled with that outcome, its raw object accounted for once, a batch delivered in full and in order |
| `AsyncOperations.CallbackDecides` | src/Consumer.cc:262-317 | over all runs, in terms of their steps: the operations are those issued, in order; each deferred is told the operation's value if the callback brought something, the error the callback reported, or nothing; what the callback brought is adopted or freed exactly once when delivered, and a batch arrives whole |
| `AsyncOperations.ReceivedIsDelivered` | src/Consumer.cc:295-317 | a received message is adopted exactly when its promise has been settled, in every continuation |
| `AsyncOperations.StepInv` | src/Consumer.cc:262-317 | every step of every operation keeps the ownership invariant |
| `AsyncOperations.CopyBatch` | src/Consumer.cc:275-288 | the array holds every message of the list in order, and the list is freed once after its last use |
| `ListenerInvariant.StepInv` | src/Consumer.cc:76-140 | every step of every thread keeps the invariant of the listener protocol, given the pause hypothesis; its only fault is a use of a collected Consumer |
| `ListenerInvariant.StepCore` | src/Consumer.cc:106-175 | all of it but the ownership guard is kept even without the hypothesis |
| `ListenerInvariant.StepGuarded` | src/Consumer.cc:490-497 | once the owner's token is gone no thread is on its way to Acquire |
| `ListenerInvariant.ReachableInv` | src/Consumer.cc:106-216 | the invariant holds in every reachable state, for any number of listener threads |
| `ListenerSafety.TokenConservation` | src/Consumer.cc:106-140 | in every reachable state (success, failed subscribe, late refusal, exception, repeated close) the thread count is config-owned plus lambda-held plus consumer-owned tokens plus threads between Acquire and Release; nothing over-released, the only freed thing ever used a collected Consumer, the record deleted at most once and only when nobody needs it, Acquire never refused |
| `ListenerSafety.KeepAlive` | src/Consumer.cc:127-140 | the listener is set exactly while one extra reference is held; the destructor never finds it set; any number of closes releases and unrefs once |
| `ListenerSafety.SubscribePromise` | src/Consumer.cc:153-176 | every step leaves subscribe's promise alone, decides it or delivers it; only a successful callback decides it to resolve |
| `ListenerSafety.ThrownForGood` | src/Consumer.cc:179-187 | after an exception out of InitConfig, in every continuation: the promise stays pending, no consumer exists, the thread count is the config's token until NewInstance is left and then zero, the record deleted at most once |
| `ListenerHypothesis.ConfigThrown` | src/ConsumerConfig.cc:233-262 | that situation is reachable with a listener |
| `ListenerSafety.MessagesInOrder` | src/Consumer.cc:76-124 | each thread's history is a list of complete dispatch, start, completion, resume blocks in dispatch order, then the beginning of one: exactly one completion per message however the handler ended, and disjoint intervals |
| `ListenerRuns.StageIsWhatHappened` | src/Consumer.cc:76-124 | over every run, in terms of its steps: a call waits for a promise if and only if its handler returned one that was not settled since, is settled as it was settled, is signalled at once after a return or a throw and after the reactions otherwise, and freed when its thread has resumed |
| `ListenerRuns.PlainHandlersResume` | src/Consumer.cc:76-124 | if no handler returned a promise, a run that cannot be extended has every thread back |
| `ListenerRuns.HandledAsDispatched` | src/Consumer.cc:106-124 | each thread has handled, completely and in order, all messages the run's steps dispatched on it but the one it is working on |
| `ListenerRuns.CloseReleasesOnce` | src/Consumer.cc:490-497 | after a call of close, in every continuation: the token given back and the reference dropped exactly once, the listener gone and paused |
| `ListenerRuns.HandlerHoldsConsumer` | src/Consumer.cc:76-85 | the Consumer stays reachable while a handler it was given to runs |
| `ListenerSafety.LogIsBlocks` | src/Consumer.cc:106-124 | a history that the sequential loop accepts is a list of such blocks |
| `ListenerSafety.CompletionIsSafe` | src/Consumer.cc:76-104 | whenever the main thread uses proxy data or stack promise, their thread is still waiting for that call and has not been signalled |
| `ListenerSafety.BackPressure` | src/Consumer.cc:87-123 | unfinished handler runs, asynchronous ones included, map injectively to held threads, so at most as many run at once as there are threads |
| `ListenerProgress.RankDecreases` | src/Consumer.cc:76-124 | every step of the code, the callbacks and the handlers' promises lowers the rank |
| `ListenerProgress.RunsEnd` | src/Consumer.cc:76-124 | between inputs from outside a run takes at most rank-many steps |
| `ListenerProgress.QuietState` | src/Consumer.cc:106-140 | with nothing left but users' promises, every thread is free or waits for an unsettled promise, and a record without owner has been deleted once |
| `ListenerProgress.EveryThreadResumes` | src/Consumer.cc:76-140 | once all handlers settle, every run ends within the rank with every dispatched message's thread resumed |
| `ListenerProgress.BlockedThread` | src/Consumer.cc:106-175 | after a successful subscribe a blocked thread waits for an unsettled user promise, or the main thread has a step, or it is in Cleanup and some thread can go on to its Acquire |
| `ListenerHypothesis.PauseHypothesisIsNeeded` | src/Consumer.cc:490-497 | if Cleanup releases while any thread stands before its Acquire, some continuation uses the deleted record: the hypothesis is exact |
| `ListenerHypothesis.CloseMeetsDispatch` | src/Consumer.cc:490-520 | that situation is reachable, for every message |
| `ListenerHypothesis.Drain` | src/Consumer.cc:106-124 | from any state without owner and with a thread before its Acquire, the system can drain and then fail |
| `ListenerLifetime.CollectIsSafeIffUnneeded` | src/Consumer.cc:76-104 | collecting the Consumer is safe for every continuation, with no promise from the environment, if and only if no thread is about to queue a call and no call is queued, pending or rejected |
| `ListenerLifetime.ReleasedForGood` | src/Consumer.cc:76-104 | once it was collected unneeded, nothing that was freed is ever used |
| `ListenerLifetime.NeededIsUsed` | src/Consumer.cc:78-94 | collected while needed, some continuation follows the pointer to it: the proxy, or the catch reaction of a rejection |
| `ListenerLifetime.CarefulRunsAreSafe` | src/Consumer.cc:76-140 | over every run, with the pause hypothesis and an application that keeps its consumer while it is needed, nothing is used after it was freed |
| `ListenerLifetime.ForgottenWhileQueued` | src/Consumer.cc:490-497 | for every message, a reachable state in which the Consumer can be collected while its call is queued |
| `ListenerLifetime.ForgottenWhilePending` | src/Consumer.cc:490-497 | and one in which it can be while its handler's promise is unsettled |
| `ListenerObjects.ListenerRecord.constructor` | src/ConsumerConfig.cc:234-238 | a queue of one call and one token |
| `ListenerObjects.Consumer.SetListenerCallback` | src/Consumer.cc:127-140 | changes the object as the protocol's step says; a second listener is ignored |
| `ListenerObjects.Consumer.Cleanup` | src/Consumer.cc:490-497 | pause, release, forget and unref as the protocol says, for close and destructor alike; without a listener nothing |
| `ListenerObjects.CloseIsItsSteps` | src/Consumer.cc:499-502 | Cleanup called by close is the protocol's two steps, the pause and the release |
| `ReaderProtocol.StepInv` | src/Reader.cc:60-112 | every step keeps the reader's invariant, given its hypothesis; its only fault is a use of a collected Reader |
| `ReaderProtocol.DeliveredMessagesAreContiguous` | src/Reader.cc:60-112 | for any timing of publication and close, the messages handed to JavaScript are a contiguous segment of those dispatched, after the skipped and before the refused ones; none is refused while the function is open |
| `ReaderRuns.HandledIffReadAfterPublish` | src/Reader.cc:60-112 | over every run, in terms of its steps: of the messages it dispatched, those proxied are skipped if they read the pointer before publication and given to JavaScript otherwise, and only the one in flight is in neither segment nor refused |
| `ReaderRuns.CloseReleasesOnce` | src/Reader.cc:313-319 | once closed, the token stays given back, exactly once |
| `ReaderProtocol.CompletionOnce` | src/Reader.cc:60-97 | completion fires exactly once for each skipped message and each handler that returns or fulfils, and for no other; only the message in flight can be without; a thread resumes only after it |
| `ReaderProtocol.ReaderTokens` | src/Reader.cc:313-321 | token count, one deletion, one extra reference and one release over any number of closes; the only freed thing ever used is a collected Reader |
| `ReaderProgress.RankDecreases` | src/Reader.cc:60-97 | every step of the code, the callbacks, the handlers and their promises lowers the rank |
| `ReaderProgress.RunsEnd` | src/Reader.cc:60-97 | between inputs from outside a run takes at most rank-many steps, all for one message |
| `ReaderProgress.HeldUpOnlyByHandler` | src/Reader.cc:81-97 | with nothing left but promises, the dispatching thread is free or held up by a handler that has not settled or was abandoned |
| `ReaderProgress.ResumesIffHandlerFinishes` | src/Reader.cc:60-97 | from any reachable state, every maximal run ends within the rank, with the dispatching thread back if and only if the message was not handed over or its handler is among the finished ones |
| `ReaderProgress.ComesBackIffHandlerFinishes` | src/Reader.cc:60-97 | from the dispatch of a message on, in terms of the run's own steps: the thread comes back if and only if no throw and no rejection occurs, that is, the message was not handed over or a return or a fulfilment occurs |
| `ReaderProgress.FinishRun` | src/Reader.cc:60-78 | what the steps of a run did to the handler is what the state says about it |
| `ReaderProgress.AbandonedForGood` | src/Reader.cc:65-78 | after a throw or a rejection no continuation ever signals |
| `ReaderProgress.HandlerThrew` | src/Reader.cc:65-66 | a reachable state with a handler that threw |
| `ReaderProgress.PromiseRejected` | src/Reader.cc:66-75 | a reachable state with a handler whose promise was rejected |
| `ReaderLifetime.CollectIsSafeIffUnreached` | src/Reader.cc:60-97 | collecting the Reader is safe for every continuation if and only if the function has begun to close or the dispatching thread is held up for good |
| `ReaderLifetime.UnreachedForGood` | src/Reader.cc:60-97 | then nothing that was freed is ever used |
| `ReaderLifetime.DoomedIsUsed` | src/Reader.cc:81-97 | otherwise the message in flight is finished and it or the next one follows the pointer to the deleted Reader |
| `ReaderLifetime.CarefulRunsAreSafe` | src/Reader.cc:60-112 | over every run, with the hypotheses and an application that keeps its reader while messages can reach it, nothing is used after it was freed |
| `ReaderLifetime.ForgottenWhileQueued` | src/Reader.cc:313-319 | a reachable state in which the Reader can be collected while a call for it is queued |
| `ReaderLifetime.FinalizeHypothesisIsNeeded` | src/Reader.cc:81-87 | finalizing while a thread stands before its Acquire, its next step uses the deleted record |
| `ReaderLifetime.EnterHypothesisIsNeeded` | src/Reader.cc:81-87 | and so does the first step after entering a finalized record |
| `ReaderLifetime.CloseMeetsDispatch` | src/Reader.cc:313-319 | a reachable state, without fault, in which only the hypothesis prevents it |
| `ReaderObjects.ListenerRecord.constructor` | src/ReaderConfig.cc:86-94 | one token, a queue of one, a null reader |
| `ReaderObjects.ReaderConfig.GetListenerCallback` | src/ReaderConfig.cc:126-130 | hands the record over and keeps nothing |
| `ReaderObjects.ReaderConfig.Destroy` | src/ReaderConfig.cc:112-116 | gives back the token it still owns, and nothing if the reader has taken it |
| `ReaderObjects.Reader.SetListenerCallback` | src/Reader.cc:100-112 | takes the record, tells it its reader and adds a reference; a second listener, and a missing one, change nothing |
| `ReaderObjects.ResolveReader` | src/Reader.cc:138-144 | the new Reader takes the record over from the config as the protocol's step says |
| `ReaderObjects.Reader.Cleanup` | src/Reader.cc:313-321 | releases and unrefs once, for close and destructor alike, as the protocol says |
| `KeyReader.RoutedLikeDirectCall` | src/CryptoKeyReader.cc:108-129 | on every thread and in every interleaving the result and key info are those of a direct call at some moment between call and return, or a crypto error with the key info untouched; a queued question only writes to a frame that still exists |
| `KeyReader.ReturnedIsAnswered` | src/CryptoKeyReader.cc:70-129 | over every run, in terms of its steps: request i is the i-th call, asks JavaScript directly only from the main thread and is queued only from another, is refused if and only if its queueing failed, and otherwise returns what asking the object once, in a state it was in meanwhile, means |
| `KeyReader.CallFits` | src/CryptoKeyReader.cc:52-106 | callJsMethod does what an answer means, said without it |
| `KeyReader.MainNeverWaits` | src/CryptoKeyReader.cc:108-129 | the main thread's questions are never queued, and while a thread waits the main thread can serve |
| `KeyReader.QueueIsFair` | src/CryptoKeyReader.cc:117-127 | queued questions are answered in order and each answer leaves the others alone |
| `KeyReader.EveryQuestionIsAnswered` | src/CryptoKeyReader.cc:108-129 | from any state of any run, a maximal run without new questions ends within the rank with every executeCallback returned, answered like a direct call or refused by the queue |
| `KeyReader.RankDecreases` | src/CryptoKeyReader.cc:108-129 | every step but new questions and changes of the object lowers the rank |
| `KeyReader.StepInv` | src/CryptoKeyReader.cc:108-129 | every step keeps the routing invariant |
| `KeyReader.CallJsMethod` | src/CryptoKeyReader.cc:70-106 | called exactly if the object has the method, with the key name and the metadata as it is shown; Ok exactly if it returns an object that can be read; the key info is what was received |
| `KeyReader.ParseEncryptionKeyInfo` | src/CryptoKeyReader.cc:52-68 | a returned key replaces the old one and a missing one leaves it; metadata entries replace the old metadata by exactly those listed and none leaves it; an exception halfway keeps the key |
| `KeyReader.MapOfKeepsProperties` | src/CryptoKeyReader.cc:58-66 | the property loop keeps every property |
| `KeyReader.MapOfNames` | src/CryptoKeyReader.cc:58-66 | and adds none |
| `KeyReader.MapOfIsListed` | src/CryptoKeyReader.cc:58-66 | the property loop gives exactly the listed names, each with its last value |
| `KeyReader.VisibleIsShown` | src/CryptoKeyReader.cc:89-92 | JavaScript sees the names up to their first NUL, without `__proto__` |
| `KeyReader.MetadataIsShownIffPlain` | src/CryptoKeyReader.cc:89-92 | JavaScript sees the given metadata if and only if no name is `__proto__` or contains a NUL |
| `KeyReader.ProtoIsLost` | src/CryptoKeyReader.cc:89-92 | an instance of metadata that is not shown |
| `LoggerSlot.OneLoggerToken` | src/Client.cc:261-285 | over any sequence of set, replace, clear, construction and logging: exactly the slot's function has an unreleased token, every other was released exactly once, one record while the slot is set |
| `LoggerSlot.SlotFollowsLastSetting` | src/Client.cc:356-367 | the slot is set exactly if the last deciding operation set it, and holds the newest function |
| `LoggerSlot.TextsReachCurrentHandler` | src/Client.cc:575-592 | over any history: each handler is queued exactly the texts logged while it was the current one, in order, and each foreign argument is an error |
| `LoggerSlot.Logger.SetLogHandler` | src/Client.cc:261-285 | null clears, a function replaces, anything else is an error and changes nothing |
| `LoggerSlot.Logger.LogOption` | src/Client.cc:356-367 | a log function replaces the handler |
| `SchemaInfo.TableIsInjective` | src/SchemaInfo.cc:37-54 | schema names and schema types determine each other |
| `SchemaInfo.GetSchemaTypeName` | src/SchemaInfo.cc:99-106 | the name the constructor reads back as that type; none exactly if no name leads to it |
| `SchemaInfo.SchemaInfo.constructor` | src/SchemaInfo.cc:56-87 | the schema an object describes, or the exception for an unknown type or a property that cannot be converted |
| `SchemaInfo.SchemaInfo.ReadProperties` | src/SchemaInfo.cc:77-86 | the property loop reads every property, in whatever order, and throws exactly if one cannot be converted |
| `SchemaInfo.SchemaByOption` | src/SchemaInfo.cc:56-87 | each field by the option it comes from, with its defaults; a text schema is the UTF-8 of the text |
| `JsValue.Utf8RoundTrip` | src/SchemaInfo.cc:71-72 | the bytes of a text are its characters in UTF-8 |
| `SchemaInfo.NewObject` | src/SchemaInfo.cc:108-125 | type name, name, bytes and one own property per pair |
| `SchemaInfo.DeliverSchemaInfo` | src/Client.cc:551-559 | an object that reads back as that type, or a rejection exactly for types without a name |
| `SchemaInfo.SchemaRoundTrip` | src/SchemaInfo.cc:56-125 | reading back what NewObject built returns the same schema if and only if no key contains a NUL |
| `SchemaInfo.NulKeyIsLost` | src/SchemaInfo.cc:117-122 | an instance of a schema that does not survive |
| `ConsumerConfig.VerdictOfConfiguration` | src/ConsumerConfig.cc:109-411 | a configuration is accepted exactly if nothing is wrong with it, throws exactly under the stated condition on it, and is rejected otherwise |
| `ConsumerConfig.ReasonsInOrder` | src/ConsumerConfig.cc:109-411 | each reason and each exception is given for its own problem, and exactly if nothing before it was in the way |
| `ConsumerOptions.AckTimeoutOption` | src/ConsumerConfig.cc:176-185 | every whole ack timeout is refused exactly if it is neither 0 nor at least 10000 |
| `ConsumerOptions.RedeliveryOption` | src/ConsumerConfig.cc:187-197 | every whole delay is refused exactly if it is negative |
| `ConsumerOptions.BatchOption` | src/ConsumerConfig.cc:320-351 | every batch policy is refused exactly without a positive limit or by the C++ client, which is asked for these three limits |
| `ConsumerOptions.DefaultBatchOption` | src/ConsumerConfig.cc:323-337 | the limits of a policy that gives none |
| `ConsumerOptions.StickyRangeOption` | src/ConsumerConfig.cc:370-401 | every sticky range from start to end is refused exactly if it is reversed, and handed over as this pair otherwise |
| `ConsumerOptions.RangesRefusedIff` | src/ConsumerConfig.cc:374-386 | a list of ranges is refused exactly if some start exceeds its end |
| `ConsumerOptions.SchemaOption` | src/ConsumerConfig.cc:216-220 | a schema type is accepted exactly if it is in the table |
| `ConsumerOptions.TargetOptions` | src/ConsumerConfig.cc:111-142 | for every pattern, topic list, topic and subscription: which is asked for and which is missing |
| `JsValue.WholeNumbers` | src/ConsumerConfig.cc:176-177 | whole numbers that fit are kept by the conversions |
| `JsValue.TruncRounds` | src/ConsumerConfig.cc:176-177 | what rounding towards zero means |
| `ConsumerConfig.MissingConfigThrows` | src/ConsumerConfig.cc:109-113 | undefined and null throw |
| `ConsumerConfig.ForeignKeyReaderThrows` | src/ConsumerConfig.cc:257-262 | a plain object as key reader throws after the listener exists |
| `ConsumerConfig.SymbolPropertyThrows` | src/ConsumerConfig.cc:222-231 | a property that cannot be converted throws |
| `ConsumerConfig.RefusedRangeIsFirst` | src/ConsumerConfig.cc:370-401 | a refused sticky range is the first bad one and the error has its index |
| `ConsumerConfig.ConsumerConfig.InitConfig` | src/ConsumerConfig.cc:109-411 | at most one rejection, with the first problem's reason; an exception leaves the deferred untouched; the listener's token exists exactly if its option was reached; an accepted configuration has every value in place, by the names of the options |
| `ConsumerConfig.ConsumerConfig.ReadTarget` | src/ConsumerConfig.cc:111-142 | topic, the string topics in order, pattern and subscription, and which of them is missing |
| `ConsumerConfig.ConsumerConfig.ReadTopics` | src/ConsumerConfig.cc:115-122 | exactly the strings of the array, in order |
| `ConsumerConfig.ConsumerConfig.ReadTimeouts` | src/ConsumerConfig.cc:176-197 | ack timeout 0 or at least 10000, redelivery delay not negative |
| `ConsumerConfig.ConsumerConfig.ReadProperties` | src/ConsumerConfig.cc:222-231 | throws exactly if some property cannot be converted |
| `ConsumerConfig.ConsumerConfig.ReadBatchPolicy` | src/ConsumerConfig.cc:320-351 | some limit is positive and the C++ client agrees; the limits are those of their own names, or the defaults |
| `ConsumerConfig.ConsumerConfig.ReadRanges` | src/ConsumerConfig.cc:370-401 | the pairs of start and end in order, none reversed, or the first problem, or the exception of the C++ client |
| `ConsumerConfig.ConsumerConfig.GetListenerCallback` | src/ConsumerConfig.cc:427-431 | the token moves to the lambda as the protocol's step says |
| `ConsumerConfig.ConsumerConfig.Destroy` | src/ConsumerConfig.cc:413-417 | the last shared pointer gives back a token that is still owned |
| `ConsumerConfig.StringsMembers` | src/ConsumerConfig.cc:115-122 | a topic is kept exactly if it is a string of the array |
| `ConsumerConfig.StringsConcat` | src/ConsumerConfig.cc:115-122 | and the order of the array is kept: the strings of two lists in a row are those of the first, then those of the second |
| `ConsumerConfig.CopyTopics` | src/Consumer.cc:201-204 | the C array holds the topics in order, each up to its first NUL |
| `ConsumerConfig.NewInstance` | src/Consumer.cc:179-216 | a subscribe call is issued if and only if the configuration is acceptable, on the one route that is given (pattern, topics, topic) and with its strings as C strings, none of them empty if and only if each begins with something else than a NUL; an exception leaves it if and only if InitConfig throws, with the deferred untouched; otherwise the promise is rejected once; without a call the listener's token has been given back |
| `ConsumerConfig.HandedOverNonEmpty` | src/Consumer.cc:196-213 | the exact condition on the configuration under which no string of the target, and not the subscription, reaches the C client empty |
| `ConsumerConfig.HandedOverWhole` | src/Consumer.cc:196-213 | the C client is asked for exactly the configured target if and only if none of its strings contains a NUL |
| `ConsumerConfig.EmptyTopicIsSubscribed` | src/Consumer.cc:209-213 | an accepted configuration whose topic reaches the C client empty |
| `ConsumerConfig.EmptyTopicInList` | src/Consumer.cc:200-208 | an accepted topic list with an empty topic in it |
| `Failover.BuildAuthenticationPtr` | src/Client.cc:83-104 | succeeds exactly on an object with a native binding, whose reference is kept |
| `Failover.BuildServiceInfo` | src/Client.cc:106-165 | succeeds exactly on a usable service, described option by option with defaults for what it does not say; otherwise what is wrong with it, naming the field unless the authentication object is to blame |
| `Failover.SetPositiveUint32` | src/Client.cc:167-188 | absent, or truncated into 1 .. 2^32 - 1 |
| `Failover.BuildSecondaries` | src/Client.cc:226-236 | all services in order with their references kept, or the error of the first bad one |
| `Failover.BuildNumbers` | src/Client.cc:241-255 | each number from the option of its own name, or its default |
| `Failover.BuildServiceInfoProvider` | src/Client.cc:190-259 | a provider if and only if primary, secondaries and numbers are usable, with each service described by its own entry and each number by its own option; which of them is missing otherwise; a bad secondary is named by the first bad index if and only if its authentication object is not to blame |
| `Failover.UnnamedSecondary` | src/Client.cc:97-100 | an instance of a bad secondary whose error does not name it |
| `Failover.OverridesAreRetained` | src/Client.cc:93-95 | every overriding authentication has its binding among the retained references |
| `UserEvent.DecodeAfterEncode` | tests/protobuf_schema/generated/user_event_pb.js:147-253 | decode(encode(m)) is m up to default values, negative ages and empty tags included, if and only if the message's unknown records are records |
| `UserEvent.ReencodeIsFaithful` | tests/protobuf_schema/generated/user_event_pb.js:147-253 | any bytes that decode to m: encoding m and decoding again gives m, unknown records byte for byte and in order |
| `UserEvent.ConcatenationMerges` | tests/protobuf_schema/generated/user_event_pb.js:193-253 | decoding a ++ b into a target is decoding b into the result of a |
| `UserEvent.LastOneWins` | tests/protobuf_schema/generated/user_event_pb.js:204-249 | bytes decode exactly if they are records; each scalar is that of its last record, empty or zero resets it, tags and unknown records are all kept in order |
| `UserEvent.UnknownBehind` | tests/protobuf_schema/generated/user_event_pb.js:245-247 | a record of any wire type that is none of the fields, groups included, behind a message is kept byte for byte and changes nothing else |
| `UserEvent.UnknownBefore` | tests/protobuf_schema/generated/user_event_pb.js:245-247 | and so it is before a message |
| `UserEvent.UnknownFixed64` | tests/protobuf_schema/generated/user_event_pb.js:245-247 | an instance with an unknown fixed64 |
| `UserEvent.EncodedMessage` | tests/protobuf_schema/generated/user_event_pb.js:154-165 | the bytes of a message with every field |
| `UserEvent.DecodeUpToReads` | tests/protobuf_schema/generated/user_event_pb.js:200-202 | decode with a length reads whole records, up to the first end of a record that is not before the length |
| `UserEvent.DelimitedRoundTrip` | tests/protobuf_schema/generated/user_event_pb.js:178-269 | one delimited message is read back and exactly its bytes are consumed, whatever follows |
| `UserEvent.StreamRoundTrip` | tests/protobuf_schema/generated/user_event_pb.js:178-269 | any list of delimited messages is read back in full and nothing is left over |
| `UserEvent.EntryRoundTrip` | tests/protobuf_schema/generated/user_event_pb.js:154-165 | a record is read back as it was written, whatever follows |
| `UserEvent.EntryLocal` | tests/protobuf_schema/generated/user_event_pb.js:204-249 | reading a record depends on no byte after it |
| `UserEvent.FieldNumbers` | tests/protobuf_schema/generated/user_event_pb.js:154-162 | the tags written are the field numbers and wire types of the schema |
| `Wire.VarintRoundTrip` | tests/protobuf_schema/generated/user_event_pb.js:154-162 | every value of up to 64 bits is read back, whatever follows |
| `Wire.VarintBytes` | tests/protobuf_schema/generated/user_event_pb.js:154-162 | a varint's bytes are the number in base 128 with continuation bits, and no more than needed |
| `Wire.VarintIsRead` | tests/protobuf_schema/generated/user_event_pb.js:204-223 | a varint is read from its bytes, shortest or not, if there are at most ten of them, and from nothing else |
| `Wire.SpecifiedBytes` | tests/protobuf_schema/generated/user_event_pb.js:154-162 | the specification's example, and ten bytes for a negative int32 |
| `Wire.SignedRoundTrip` | tests/protobuf_schema/generated/user_event_pb.js:158-159 | a negative int32 survives its 64-bit form |
| `Wire.SkipValueLocal` | tests/protobuf_schema/generated/user_event_pb.js:245-247 | skipping an unknown value, groups included, depends on no byte after it |
| `Wire.SkipWritten` | tests/protobuf_schema/generated/user_event_pb.js:245 | skipping a value of any wire type, nested groups included, takes exactly the bytes it was written with, whatever follows |
| `Wire.NoSuchValue` | tests/protobuf_schema/generated/user_event_pb.js:245 | and nothing for the wire types that are no value |
| `UserEventCodec.EncodeTo` | tests/protobuf_schema/generated/user_event_pb.js:147-167 | the writer gains exactly the encoding |
| `UserEventCodec.EncodeDelimited` | tests/protobuf_schema/generated/user_event_pb.js:178-180 | the writer, empty or not, gains exactly the delimited encoding; right after a fork of the caller's it ends that fork |
| `UserEventCodec.DecodeField` | tests/protobuf_schema/generated/user_event_pb.js:205-248 | one turn of the loop reads one record and does to the message what that record says |
| `UserEventCodec.DecodeFrom` | tests/protobuf_schema/generated/user_event_pb.js:193-253 | the loop ends with the message and position that reading record by record gives |
| `UserEventCodec.DecodeLoopIsDecode` | tests/protobuf_schema/generated/user_event_pb.js:200-249 | the loop by positions is decoding by the rest of the buffer |
| `UserEventCodec.DecodeDelimited` | tests/protobuf_schema/generated/user_event_pb.js:265-269 | a length, then exactly the records that begin within it |
| `UserEventCodec.EncodeThenDecode` | tests/protobuf_schema/generated/user_event_pb.js:147-253 | through writer and reader, every message comes back up to default values |
| `UserEventCodec.StreamThere` | tests/protobuf_schema/generated/user_event_pb.js:178-269 | any list of messages through one writer and one reader comes back in order with no byte left |

## Left out

- The C++ Pulsar client, the broker, the network, TLS and encryption: only their callbacks appear, as steps of the environment.
- `acknowledge`, `seek`, `unsubscribe`, `flush`, `send` and their like: `AsyncOperations.Plain` stands for their common callback shape.
- `TokenSupplier` in src/Authentication.cc: the reader's blocking hand-over again, in an easier form.
- The workers behind `receive` with a timeout and `readNext`: thread-pool jobs with a plain promise; no ownership claim is made for them.
- Node environment teardown, and a `LogMessage` that runs while the handler is being cleared: `LogMessage` is one atomic step.
- Deferred.RunRefinesPromise: stated for value callbacks that return; what one that throws leaves behind is in `Deferred.ThreadSafeDeferred.RunFinalizer`, and what Node makes of the exception is not modelled.
- Where the error of a failed consumer handler is logged, and the `catch` and `finally` reactions as two microtasks: they are one step, `RunFinally`.
- JavaScript getters with side effects and inherited properties: reading a property is a function of the object; JavaScript's own conversion to a string is a parameter, which may throw.
- Error wording: errors are values that say which field they name and why; how a reason reads is a parameter.
- The setters of `InitConfig` that copy one value (subscription type, positions, names, queue sizes, the values of properties, dead letter policy, key file, failure action, chunking), `ProducerConfig` and the message getters: single-branch copies; the C++ client is taken to return from them.
- A `cryptoKeyReader` that wraps a native object of another class: `Unwrap` does not tell it from a key reader; here it counts as foreign.
- What Node and the C++ runtime make of an exception that leaves `NewInstance`.
- The C++ client's answers to a batch policy and to sticky ranges, and AutoClusterFailover's default numbers: parameters.
- Certificate files, type declarations, examples, performance and build scripts: no behaviour to state.
- protobufjs itself: its Writer and Reader follow the Protocol Buffers encoding specification; tags beyond 32 bits or with field 0 are malformed, and recursion limits, `verify`, `fromObject`, `toObject` and decode's end-group parameter are not part of this model.
- UTF-8 conversion in the codec: its strings are their bytes.
- UserEvent.DelimitedRoundTrip: stated for messages below 2^32 bytes, the longest a length prefix can announce.
