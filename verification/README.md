# Verification of the browser engine's protocols, codecs and transformations

A Dafny model of the parts of the engine where a mistake is silent: shared-memory queues with wrapping counters, credit
protocols between two ends, a source transformation that must not change what a program means, codecs that must read
back what they wrote, and caches that must not show. `dafny verify dfyconfig.toml` checks it.

Concurrent parts are state machines whose steps are the atomic loads, stores, waits, notifies and messages of the
program; what is proved holds in every state of every interleaving. Objects the program changes in place are classes
whose methods are proved against the functions the state machines and the laws use.

- **Punycode** (`Ucs2`, `Bootstring`, `PunycodeSpec`, `PunycodeRoundTrip`, `PunycodeLimits`, `PunycodeFormulas`,
  `PunycodeSamples`, `Punycode`, `RuntimePunycode`): the embedded library's encoder and decoder, and the engine's
  second decoder, against RFC 3492's own formulas and two samples of its section 7.1. The encoder hands `adapt` the
  count at the start of a pass, which for a code point that occurs again is not the decoder's count; the biases are
  proved equal all the same. The encoder's delta can stay within 31 bits where the decoder's counter cannot: the round
  trip holds exactly when each code point's place is within 31 bits, and always up to 1927 code points.
- **Stdin ring** (`Words`, `StdinRing`, `StdinRingSafety`, `StdinRingRuns`, `StdinRingCalls`, `StdinRingProgress`) and
  **addon queue** (`NativeQueue`, `NativeQueueSafety`, `NativeQueueRuns`, `NativeQueueStop`, `NativeQueueDelivery`,
  `NativeQueueSends`): both ends' steps over the shared words, what each call answers, that it does, and that no
  message is lost on the way. The queue's comment says a writer waiting on a full queue is woken by stop and drops its
  send. One that has checked STOP and not yet begun to wait is not: with the head unmoved it goes to sleep after
  stop's notify, the receiver done, and sleeps for ever with the lock in its hands. A run that gets there is given,
  and exactly which writers the stop reaches. Nor does the receiver return without waiting again where the stop falls
  between its last look at STOP and its wait.
- **Flow-controlled response** (`FlowStream`, `FlowStreamWorker`, `FlowStreamSafety`, `FlowStreamRuns`) and **port registrations**
  (`PortMapping`, `PortMappingSafety`): the page and the service worker over their channels.
- **Guest-name rewriting** (`GuestLanguage`, `GuestNames`, `GuestDeclarations`, `GuestFreeNames`, `GuestOccurrences`,
  `GuestScopes`, `GuestScopeLaws`, `GuestPlaces`, `GuestEvaluator`, `GuestEnvironments`, `GuestSimulation`): a core of
  strict JavaScript, which names the declarations standing in a piece of it bind and where, the scope walk as the body
  it makes, and an evaluator for which a rewritten body and the body as written do the same.
- **Module resolution** (`Strings`, `Paths`, `PathLaws`, `Resolution`, `NodeResolver`, `ResolutionLaws`,
  `ResolutionOrder`, `ResolutionPackages`, `ResolutionWalks`, `ImportLoops`): the algorithm asked of the tree alone,
  which candidate it prefers to which, and the resolver with all it keeps, proved to answer the same. The stub cache
  is keyed by digest and also remembers a file that could not be read as no stub, so its condition is that files of
  one digest agree on being throwing stubs. An imports map can lead to another `#` name, and the source follows it
  without a bound: it never ends exactly where a set of names lead, past targets that answer nothing, to one another
  again. How many in a row are allowed for is a parameter the answers are proved not to depend on.
- **Native pipes** (`WriteChunks`, `PipeDriver`, `PipeRuns`, `SendCredit`, `SendCreditSafety`): a process's write
  queue, pump and shutdown, and the send window it shares with the owner. The window's words come round after 2^32
  bytes, and a compare-exchange that far behind its loads can then take room there is not; exactly when is proved,
  with a run. The processes' side of the window follows the rule stated beside the words
  (`src/native-stream-owner.ts:407-413`); its code is not part of this repository.
- **Addresses** (`Numerals`, `HostAddresses`, `HostAddressRoundTrip`, `HostAddressForms`), **process numbers**
  (`ProcessRegistry`), **next ticks** (`GuestTicks`), **edit assembly** (`SourceEdits`), **document prelude**
  (`DocumentPrelude`).

## Model

| member | source | states |
|---|---|---|
| `Ucs2.Decode` | src/punycode-source.ts:6 | The loop over code units gives the string's code points: a surrogate pair is one, an unmatched surrogate is itself |
| `Ucs2.UnitsOfPoints` | src/punycode-source.ts:6 | Writing a string's code points back gives the string, lone surrogates included |
| `Ucs2.PointsOfUnits` | src/punycode-source.ts:6 | Writing code points and reading them again gives them back if and only if no high surrogate stands before a low one |
| `Bootstring.DigitsInvert` | src/punycode-source.ts:6 | A digit written as a basic code point reads back as that digit and is never the delimiter |
| `Bootstring.ComputeAdapt` | src/punycode-source.ts:6 | The dividing loop of `adapt` computes the bias function the proofs use |
| `Bootstring.AdaptBound` | src/punycode-source.ts:6 | No 31-bit delta and no count of points makes a bias above 215 |
| `Bootstring.AdaptIgnoresCount` | src/punycode-source.ts:6 | Where half the delta is below both counts the bias does not depend on which is given: encode's count taken at the start of a pass makes decode's bias |
| `Bootstring.ReadsBack` | src/punycode-source.ts:6 | The digits of a variable-length integer, followed by anything, read back as exactly that integer and stop at its end, with an overflow exactly when the position reached passes 31 bits |
| `PunycodeRoundTrip.RowDecodes` | src/punycode-source.ts:6 | From one pass of encode on, decode's state machine rebuilds the code points encode still has to place, in step with encode's counters |
| `PunycodeRoundTrip.RoundTrip` | src/punycode-source.ts:6 | decode(encode(s)) is s for every sequence of code points encode accepts, or an overflow, and it overflows exactly when a code point's place passes 31 bits |
| `PunycodeRoundTrip.StringRoundTrip` | src/punycode-source.ts:6 | The same for JavaScript strings, lone surrogates included |
| `PunycodeLimits.ShortStringsRoundTrip` | src/punycode-source.ts:6 | Every string of up to 1927 code points encodes without error and decodes to itself |
| `PunycodeLimits.EncodedButNotDecoded` | src/punycode-source.ts:6 | A string of 1928 code points that encode accepts and decode answers with an overflow: the bound is the best there is |
| `Punycode.Encode` | src/punycode-source.ts:6 | The encoder's loops, overflow checks included, compute the specification the round trip is proved of |
| `Punycode.Decode` | src/punycode-source.ts:6 | The decoder's loops, with all four of its errors, compute the specification the round trip is proved of |
| `Punycode.Pass` | src/punycode-source.ts:6 | One pass over the input writes one delta for each code point of the pass, with the counters RFC 3492 section 6.3 gives them |
| `Punycode.ReadDelta` | src/punycode-source.ts:6 | One variable-length integer is read, with its overflow and bad-digit errors |
| `PunycodeFormulas.DigitsAreLettersThenNumerals` | src/punycode-source.ts:6 | The 36 digits are a to z and then 0 to 9 |
| `PunycodeFormulas.ThresholdIsClamped` | src/punycode-source.ts:6 | The threshold at position k is `k - bias`, but no less than 1 and no more than 26 |
| `PunycodeFormulas.AdaptIs` | src/punycode-source.ts:6 | The bias: the delta halved, or divided by 700 the first time, and its share of the points added, is divided by 35 the fewest times that bring it to 455; 36 for each time, and then 36 times what is left over what is left and 38 |
| `PunycodeFormulas.DigitsAre` | src/punycode-source.ts:6 | The digits of an integer are the only ones of generalized variable-length form with its value: each below the last at least its place's threshold, each worth the product of 36 less the thresholds before it |
| `PunycodeSamples.SoreSupiidoDeEncodes` | src/punycode-source.ts:6 | Sample (R) of section 7.1 of RFC 3492 is encoded as the RFC has it: seven code points, none of them basic |
| `PunycodeSamples.SannenBgumiEncodes` | src/punycode-source.ts:6 | So is sample (L), basic code points among the others |
| `RuntimePunycode.PunycodeDecode` | src/runtime.ts:2329-2362 | The engine's second decoder answers as the library's wherever that reports neither an overflow nor a non-basic unit |
| `Words.DifferenceOfWraps` | src/stdin-ring.ts:112-114 | `(a - b) >>> 0` of two wrapped counters is their true difference while that fits a word |
| `Words.SlotOfWord` | src/stdin-ring.ts:125-134 | A slot found from a wrapped counter is the slot of the count, because a power-of-two capacity divides 2^32 |
| `StdinRingSafety.CreateOk` | src/stdin-ring.ts:65-73 | A ring is made exactly for a capacity that is a power of two up to 2^30, and starts with every invariant holding |
| `StdinRingSafety.ReaderStepOk` | src/stdin-ring.ts:125-164 | Every atomic step of take, takeBlocking and whenWritten keeps the ring's invariant |
| `StdinRingSafety.WriterStepOk` | src/stdin-ring.ts:194-227 | Every atomic step of put and close keeps it |
| `StdinRingSafety.CopyInKeeps` | src/stdin-ring.ts:215-219 | Bytes copied in, in one piece or two around the end, overwrite no unread byte |
| `StdinRingRuns.EveryStateOk` | src/stdin-ring.ts:101-228 | The invariant holds in every state of every interleaving |
| `StdinRingRuns.DeliveredIsTaken` | src/stdin-ring.ts:125-156 | What the reads have answered with is what was taken, in order, up to the read still to answer |
| `StdinRingRuns.FirstInFirstOut` | src/stdin-ring.ts:112-133 | In every interleaving the bytes delivered are a prefix of the bytes taken, of the bytes published, of the bytes written; unread bytes sit unchanged in their slots |
| `StdinRingRuns.EndOfFileIsFinal` | src/stdin-ring.ts:125-127 | A read of 0 comes only after close and after every byte ever written was delivered, and nothing follows it |
| `StdinRingRuns.NoLostWakeup` | src/stdin-ring.ts:146-164 | A sleeping reader or a pending promise means an empty open ring or a notify still due; a sleeping writer means a full ring or a notify still due |
| `StdinRingRuns.NeverBothAsleep` | src/stdin-ring.ts:146-227 | Reader and writer never both sleep, though SIGNAL and the indexes wrap |
| `StdinRingRuns.ReaderIsWoken` | src/stdin-ring.ts:220-222 | With bytes or an end there, the writer's next two steps wake a sleeping reader; with bytes published since a promise began to wait, or an end, they resolve it and every other |
| `StdinRingRuns.WriterIsWoken` | src/stdin-ring.ts:130-132 | With room there, the reader's next step wakes the sleeping writer |
| `StdinRingCalls.TookWhatWasAsked` | src/stdin-ring.ts:121-133 | Over whole runs: a call that asked for up to n bytes answers with at least one and at most n, with n or with all there was when it looked, and they are the first ones not taken before |
| `StdinRingCalls.NothingWasThere` | src/stdin-ring.ts:125-127 | null is answered only by take, and only where a look of that call found nothing for it |
| `StdinRingCalls.TheEndWasSeen` | src/stdin-ring.ts:125-127 | 0 is answered only where a look of that call, made after the ring was closed, found nothing left |
| `StdinRingCalls.WrittenWasSeen` | src/stdin-ring.ts:157-163 | whenWritten is answered at once only where a look found bytes or the ring closed, or a signal came since the call began, and waits only where one look found no bytes and another the ring open |
| `StdinRingCalls.PromiseStands` | src/stdin-ring.ts:157-163 | A call left waiting has its promise, and only the writer's notify, its signal made, takes a promise away |
| `StdinRingProgress.AcceptedIsWritten` | src/stdin-ring.ts:186-201 | What the ring has accepted is, byte for byte, what was written before it was closed, but for a write still to look at CLOSED |
| `StdinRingProgress.ReaderGoesOn` | src/stdin-ring.ts:125-163 | Every step of a call brings it nearer an answer, and takeBlocking looks again only where a signal came since it looked |
| `StdinRingProgress.CallIsShort` | src/stdin-ring.ts:125-163 | In every run a call that neither sleeps nor looks again is answered within a bounded number of its own steps |
| `StdinRingProgress.ReadIsAnswered` | src/stdin-ring.ts:125-156 | A read of something, at its look at a ring with bytes in it or closed, is answered with bytes or with the end within a bounded number of its own steps, however the writer's fall between them |
| `StdinRingProgress.WriterGoesOnward` | src/stdin-ring.ts:194-227 | Every step of a put or a close brings it nearer its end, and a put looks for room again only where bytes were taken since it looked |
| `StdinRingProgress.WriteIsShort` | src/stdin-ring.ts:194-227 | In every run a put that neither sleeps nor looks again is over within seven steps a byte |
| `NativeQueueSafety.WriterStepOk` | src/native-queue.ts:22-43 | Every step of a send, by any of any number of threads, keeps the queue's invariant |
| `NativeQueueSafety.ReceiverStepOk` | src/native-queue.ts:49-73 | Every step of the drain keeps it, a callback that throws included |
| `NativeQueueRuns.EveryStateOk` | src/native-queue.ts:22-84 | The invariant holds in every state of every run |
| `NativeQueueRuns.ExactlyOnceInOrder` | src/native-queue.ts:22-73 | The received messages are a prefix of the enqueued ones in order; no slot is reused before it is read; the signed 32-bit fill stays in 0..1024 |
| `NativeQueueRuns.MutualExclusion` | src/native-queue.ts:24-42 | At most one thread is ever between taking the lock and giving it back |
| `NativeQueueRuns.NoLostWakeup` | src/native-queue.ts:24-42 | A thread asleep on the lock or on a full queue, and the receiver asleep on an empty one, each has its reason or its notify still due |
| `NativeQueueRuns.NeverBothAsleep` | src/native-queue.ts:28-70 | The receiver and the thread holding the lock are never both asleep |
| `NativeQueueRuns.NextIsReceived` | src/native-queue.ts:55-62 | A turn of the drain hands over the next message, whether or not the callback throws |
| `NativeQueueDelivery.DoneIsStopped` | src/native-queue.ts:52-71 | In every state of every run the receiver is done only with a queue that was stopped |
| `NativeQueueDelivery.NextIsHandedOver` | src/native-queue.ts:52-71 | While the queue is not stopped, fourteen steps of an awake receiver, wherever in its loop it stood, hand over the next message, however the other threads' steps fall between them and whether or not callbacks throw |
| `NativeQueueDelivery.SleeperIsNotified` | src/native-queue.ts:37-38 | A receiver asleep with a message there has the lock's holder about to notify it: the holder's own next step wakes it, and any other but a stop's leaves both so |
| `NativeQueueDelivery.NoneAfterStop` | src/native-queue.ts:55-62 | After a stop no message is handed over but one whose reading had begun, and that one is not dropped |
| `NativeQueueDelivery.StopEnds` | src/native-queue.ts:53-70 | A receiver that has not made its last look at STOP is done within nine of its own steps after a stop |
| `NativeQueueDelivery.StopFindsItAsleepOrNot` | src/native-queue.ts:63-84 | One asleep is woken by the stop; one between its last look at STOP and its wait goes to sleep after it |
| `NativeQueueSends.NothingLost` | src/native-queue.ts:22-43 | In every run every message sent is in the queue's history once, in the hands of the thread sending it, or was dropped by a stop: none is lost and none put in twice |
| `NativeQueueSends.SendGoesOn` | src/native-queue.ts:22-43 | Every step of its thread brings a send nearer its end; it tries the lock again only where the lock is free, and looks at a full queue again only where it is full |
| `NativeQueueSends.SendIsShort` | src/native-queue.ts:22-43 | In every run a send that neither sleeps nor goes round is over within fourteen steps of its thread |
| `NativeQueueRuns.StopWakesSleepers` | src/native-queue.ts:75-84 | stop's last notify leaves no thread asleep on a full queue |
| `NativeQueueRuns.StoppedWriterDrops` | src/native-queue.ts:28-42 | A thread woken by stop drops its message and gives the lock back |
| `NativeQueueRuns.StopMissesAWriterNotYetAsleep` | src/native-queue.ts:28-32 | From any state with a thread between its check of STOP and its wait, and the head it saw still the head: once stop's three steps have run, its next step goes to sleep |
| `NativeQueueStop.StopLeavesAWriterAsleep` | src/native-queue.ts:22-84 | There is a run from an empty queue, with any number of threads, that leaves a thread asleep: 1024 sends the receiver has not come to, one more up to its wait, stop to its end, the wait, and the receiver done |
| `NativeQueueStop.SleepsForEver` | src/native-queue.ts:24-42 | A thread asleep once stop has run and the receiver is done sleeps on in every continuation with the lock in its hands: no other thread ever gets it, and nothing is ever put in the queue |
| `NativeQueueStop.UnlocksUnlessItMisses` | src/native-queue.ts:28-42 | Once stop has run and the receiver is done, whatever the other threads do, the thread holding the lock gives it back within four steps of its own if and only if it is neither asleep on the full queue nor past its check of STOP with the head it saw still the head |
| `NativeQueueStop.StoppedOnceStopping` | src/native-queue.ts:79-84 | In every run STOP is set exactly from stop's first step on |
| `FlowStream.ControlledStream.Flush` | src/port-bridge.ts:770-780 | Chunks go out while there is credit, the end once the server has ended and nothing waits, and the server is paused or resumed at four waiting chunks |
| `FlowStream.ControlledStream.Pull` | src/port-bridge.ts:782 | A pull is one credit, spent at once where a chunk waits |
| `FlowStream.ControlledStream.Cancel` | src/port-bridge.ts:783 | A cancel ends the stream and drops what waits, once |
| `FlowStream.ControlledStream.ServerChunk` | src/port-bridge.ts:788-792 | A chunk of the server's is cut at 65536 bytes and queued in order |
| `FlowStream.ControlledStream.ServerEnd` | src/port-bridge.ts:793 | The server's end goes out after every chunk |
| `FlowStream.PiecesKeepBytes` | src/port-bridge.ts:790 | The pieces of a chunk are its bytes in order, none empty and none above 65536 |
| `FlowStreamWorker.RequestStream.Message` | public/__sw__.js:450-475 | A message to a live request is the start once, a chunk within the limit where a credit pays for it, the end after the start or an error; any other fails the stream and cancels the page's end |
| `FlowStreamWorker.RequestStream.Pull` | public/__sw__.js:431-439 | A pull gives the page one credit, and a second before the first is answered is an error |
| `FlowStreamWorker.RequestStream.CancelStream` | public/__sw__.js:440-443 | A reader's cancel ends the request and is told to the page, once |
| `FlowStreamWorker.RequestStream.Fail` | public/__sw__.js:416-424 | A failure ends the request, once, and is told to the page where asked |
| `FlowStreamWorker.MessageTaken` | public/__sw__.js:450-475 | A message is refused exactly where the protocol does not allow it, and then the stream fails and the page is cancelled; allowed, it is taken as it is meant |
| `FlowStreamWorker.LeavingIsTold` | public/__sw__.js:416-443 | A reader that leaves, and a request that fails on the worker's side, send the page a cancel and settle the pull |
| `FlowStreamWorker.CancelIsHeard` | src/port-bridge.ts:781-784 | A cancel on its way stops the page's end once the page has taken it and what was sent before it |
| `FlowStreamSafety.WorkerTakesOk` | public/__sw__.js:450-475 | A message taken by the worker keeps the invariant of both ends and both channels |
| `FlowStreamSafety.PageTakesOk` | src/port-bridge.ts:781-784 | So does a pull or a cancel taken by the page |
| `FlowStreamSafety.DoOk` | public/__sw__.js:429-476 | Every step of either end, of either channel or of the environment keeps it |
| `FlowStreamRuns.OneCredit` | public/__sw__.js:431-436 | In every run at most one credit is outstanding, counted over both channels and both ends |
| `FlowStreamRuns.NothingRefused` | public/__sw__.js:433-474 | No chunk ever arrives without its credit and no pull is a duplicate: the worker's refusals never happen |
| `FlowStreamRuns.ReaderGetsWhatTheServerSent` | public/__sw__.js:456-470 | What the reader received is a prefix of what the server sent, and all of it when the stream closes normally |
| `FlowStreamRuns.ServerIsPaced` | src/port-bridge.ts:777-779 | The server is held back exactly while four or more chunks wait for credit |
| `FlowStreamRuns.NoStall` | src/port-bridge.ts:770-784 | With a pull outstanding and both channels empty, nothing is waiting anywhere but for the server |
| `GuestNames.Narrow` | src/code-transforms.ts:157-165 | Taking declared names away one at a time leaves the visible names none of them is |
| `GuestDeclarations.SameVars` | src/code-transforms.ts:606-616 | Rewriting leaves the names a function's statements declare with var as they were |
| `GuestDeclarations.SameBound` | src/code-transforms.ts:122-129 | Rewriting leaves the names a pattern binds as they were |
| `GuestFreeNames.RefsLeft` | src/code-transforms.ts:663-800 | A rewritten expression refers to exactly the names it did that were not visible guest names |
| `GuestFreeNames.FuncRefsLeft` | src/code-transforms.ts:710-729 | So does a function, its parameters a scope of their own that its body's declarations do not reach |
| `GuestFreeNames.BodyRefsLeft` | src/code-transforms.ts:801-806 | The names a rewritten body refers to outside itself are exactly those it did that are no guest names |
| `GuestOccurrences.EditedExactlyWhenFree` | src/code-transforms.ts:590-808 | Occurrence by occurrence, in the order written: the rewritten body has each reference of the body as it was, but for a guest name that no declaration around it binds, which is read from the scope |
| `GuestScopeLaws.VarNamesAre` | src/code-transforms.ts:606-616 | The var names of statements are those a `var` declares anywhere in them, at any depth and in a catch block too, short of functions and classes |
| `GuestScopeLaws.LexicalNamesAre` | src/code-transforms.ts:606-622 | A block's own names are its own let, const, function and class declarations', and all of a switch's cases are one block |
| `GuestScopeLaws.ParameterNamesAre` | src/code-transforms.ts:710-729 | A function's first scope has its own name, `arguments` but for an arrow, and what its parameters' patterns declare |
| `GuestScopeLaws.NamesAreBound` | src/code-transforms.ts:606-806 | Part by part of a program, the names the walk adds on its way into the part are those the piece binds there, stated of the declarations standing in it alone |
| `GuestPlaces.OccurrencesAreReferences` | src/code-transforms.ts:590-808 | The occurrences the rewriting is stated of are the references that stand in the tree, each with the names bound around it |
| `GuestPlaces.EditedWhereItStandsFree` | src/code-transforms.ts:590-808 | A reference in a body is read from the scope if and only if it is a guest name that nothing standing around it declares |
| `GuestEnvironments.BodyRunsIn` | src/code-transforms.ts:801-806 | The evaluator runs a body with the vars that stand in it and its own let, function and class names, and no others |
| `GuestEnvironments.BlockRunsIn` | src/code-transforms.ts:758-792 | A block, a catch block and a switch with those declared in them, and no others |
| `GuestEnvironments.CallRunsIn` | src/code-transforms.ts:710-729 | A call's parameters with the function's first scope, and no other names |
| `GuestEnvironments.PatternRunsIn` | src/code-transforms.ts:758-785 | A loop's head and a catch parameter with what their patterns declare, and no other names |
| `GuestSimulation.ReadIs` | src/code-transforms.ts:623-629 | A rewritten read or called name is the guest global's property, evaluated without an effect of its own |
| `GuestSimulation.EvalT` | src/code-transforms.ts:663-800 | A rewritten expression does in the realm's scope what the expression does with guest names on the guest's global |
| `GuestSimulation.CallT` | src/code-transforms.ts:676-681 | A rewritten call keeps its receiver: none for a bare guest name |
| `GuestSimulation.NewT` | src/code-transforms.ts:682-689 | A rewritten construction, its callee wrapped, constructs the same |
| `GuestSimulation.AssignT` | src/code-transforms.ts:630-651 | A rewritten assignment, destructuring included, writes the same places in the same order |
| `GuestSimulation.BindShorthandT` | src/code-transforms.ts:633-643 | A shorthand leaf of an assignment pattern keeps its key and its default |
| `GuestSimulation.EvalFirstT` | src/code-transforms.ts:694-700 | A shorthand property of an object keeps its key |
| `GuestSimulation.RunT` | src/code-transforms.ts:710-729 | Calling a rewritten function, defaults evaluated in the parameter scope, does what calling the function does |
| `GuestSimulation.EvalClassT` | src/code-transforms.ts:746-757 | A rewritten class, heritage and members in its own scope, is the class |
| `GuestSimulation.ForT` | src/code-transforms.ts:769-775 | A rewritten for loop, its bindings new each turn, runs as the loop does |
| `GuestSimulation.ForOfT` | src/code-transforms.ts:776-785 | A rewritten for-of loop runs as the loop does, its right side inside the head's scope |
| `GuestSimulation.SwitchT` | src/code-transforms.ts:786-792 | A rewritten switch, its cases one block, runs as the switch does |
| `GuestSimulation.CatchT` | src/code-transforms.ts:758-768 | A rewritten catch clause runs as the clause does, its parameter's defaults outside the block's declarations |
| `GuestSimulation.ExecT` | src/code-transforms.ts:663-800 | Every rewritten statement does what the statement does |
| `GuestSimulation.RewritingKeepsMeaning` | src/code-transforms.ts:590-808 | A rewritten module body ends as the body does, with the same memory, guest properties and realm globals, for every program of the core language and every amount of fuel |
| `NodeResolver.Resolver.Ask` | src/node-resolution.ts:198-219 | A path's kind is the tree's, from a window's stats, the realm's answer or a stat |
| `NodeResolver.Resolver.KindOf` | src/node-resolution.ts:191-197 | A path asked again in one resolution has the answer it had |
| `NodeResolver.Resolver.DigestOf` | src/node-resolution.ts:182-189 | A digest, carried or asked for late, is the file's |
| `NodeResolver.Resolver.IsThrowingStub` | src/node-resolution.ts:141-160 | A throwing stub remembered by digest or by window is one by its text |
| `NodeResolver.Resolver.ManifestOf` | src/node-resolution.ts:222-255 | A config kept, missed or read is the tree's, and only a proved absence is kept as one |
| `NodeResolver.Resolver.LoadAsFile` | src/node-resolution.ts:264-271 | LOAD_AS_FILE: the first of the path, its extensions and its TypeScript sibling that is a file |
| `NodeResolver.Resolver.LoadAsDirectory` | src/node-resolution.ts:278-293 | LOAD_AS_DIRECTORY: the first main field that leads to a file, else the index |
| `NodeResolver.Resolver.LoadWorkspaceSource` | src/node-resolution.ts:296-317 | A member's unbuilt entry is answered by the first source of its stem that is a file |
| `NodeResolver.Resolver.LoadPackageExports` | src/node-resolution.ts:320-342 | The first target of the first condition set that is a file and no stub; a refusal only where no set names the subpath |
| `NodeResolver.Resolver.LoadFromNodeModules` | src/node-resolution.ts:354-364 | A package with an exports map is answered by the map alone |
| `NodeResolver.Resolver.LoadPackageSelf` | src/node-resolution.ts:369-379 | The nearest config decides a package's import of itself |
| `NodeResolver.Resolver.LoadPackageImports` | src/node-resolution.ts:381-402 | The nearest config decides a `#` name, whichever condition sets and targets lead where |
| `NodeResolver.Resolver.Resolve` | src/node-resolution.ts:404-431 | A resolution with any coherent kept state gives the tree's own answer, leaves the state coherent, and carries the found file's digest or none |
| `NodeResolver.ResolveAll` | src/node-resolution.ts:404-431 | Over any run of resolutions sharing one process's state, with windows opening and closing, each request is answered as if nothing were kept |
| `ResolutionLaws.FoundIsAFile` | src/node-resolution.ts:432-457 | What a resolution finds, before links, is a file of the tree |
| `ResolutionLaws.ExactPathWins` | src/node-resolution.ts:264-271 | A path that is a file is itself, before any extension |
| `ResolutionLaws.UnnamedIsNotFound` | src/node-resolution.ts:320-342 | A subpath an exports map names under no condition set is refused or missing, whatever files the package has |
| `ResolutionLaws.NearestLevelWins` | src/node-resolution.ts:440-450 | The nearest node_modules that answers answers, and nothing farther up or global does |
| `ResolutionLaws.DeeperAgrees` | src/node-resolution.ts:381-402 | An answer does not depend on how many imports maps in a row are allowed for |
| `PathLaws.NormalizeIsNormal` | src/node-resolution.ts:124-132 | No part of a normalized path is empty, `.` or `..`, and it passes through the names the path did |
| `PathLaws.NormalStays` | src/node-resolution.ts:124-132 | A normalized path is itself |
| `PathLaws.AbsoluteIgnoresBase` | src/node-resolution.ts:256 | An absolute path joined to any directory is that path normalized |
| `PathLaws.JoinUp` | src/node-resolution.ts:124-132 | `../` and the rest joined to a directory under another is the rest joined to the other |
| `PathLaws.JoinDown` | src/node-resolution.ts:124-132 | A name and the rest joined to a directory is the rest joined to the directory of that name in it |
| `PathLaws.JoinUpFromRoot` | src/node-resolution.ts:124-132 | `../` takes nothing back from the root |
| `PathLaws.ParentIs` | src/node-resolution.ts:257 | What is above a path is what stands before its last `/`, or the root |
| `PathLaws.InNodeModulesIs` | src/node-resolution.ts:442 | A directory is a node_modules exactly by its last name |
| `PathLaws.PackageNames` | src/node-resolution.ts:343-346 | A package's name is a specifier's first part, or its first two where the first begins with `@` |
| `ResolutionOrder.FileOrder` | src/node-resolution.ts:264-271 | A path is answered by itself, else by its first extension that is a file, else by the TypeScript source beside it, and by nothing else |
| `ResolutionOrder.MainBeforeIndex` | src/node-resolution.ts:278-292 | The first main field of the package.json in a directory that leads anywhere comes before the directory's index |
| `ResolutionOrder.IndexWhereNoMain` | src/node-resolution.ts:278-293 | A directory is answered by its index where no main leads anywhere, and a path that is no directory by nothing |
| `ResolutionOrder.RelativeIs` | src/node-resolution.ts:433-434 | A specifier is a path exactly where its first part is `.`, `..` or, before a `/`, empty, and an import where it begins with `#` |
| `ResolutionOrder.PathAnswered` | src/node-resolution.ts:434-437 | A path is answered as a file and, where it is none, as a directory, by its real path |
| `ResolutionOrder.UpIsThereBefore` | src/node-resolution.ts:124-132 | Every specifier `../` and a rest is answered from a directory as `./` and the rest from the one above it |
| `ResolutionOrder.FoundAbove` | src/node-resolution.ts:124-132 | A file in the directory above is what `../` and its name is answered by |
| `ResolutionOrder.DownIsThereToo` | src/node-resolution.ts:124-132 | A specifier into a directory is answered as the rest of it is from there |
| `ResolutionPackages.SourceNamed` | src/node-resolution.ts:303-305 | The source of a built entry has its name without the directory it was built to and without any of the twelve suffixes |
| `ResolutionPackages.SourceOrder` | src/node-resolution.ts:296-317 | A member, by its name or its real one, is answered under src before beside it, at the first extension that has a file, the file before a directory's index, and no other package is |
| `ResolutionPackages.StubIs` | src/node-resolution.ts:141-160 | A stub is a file that reads as white space and then `throw ` |
| `ResolutionPackages.ExportsOrder` | src/node-resolution.ts:320-335 | The first target that gives a file, under the first of the package's condition sets that has one, is the answer; a stub to be passed over gives none |
| `ResolutionPackages.ExportsNone` | src/node-resolution.ts:335-342 | Where no target gives a file the package is refused if no set names a target and refusing is asked for, and is missing otherwise |
| `ResolutionWalks.NearestIs` | src/node-resolution.ts:369-379 | The config that owns a directory is the first met on the way up, the root and a node_modules not looked at nor passed |
| `ResolutionWalks.SelfFirst` | src/node-resolution.ts:438-439 | A package asking for itself is answered or refused by its own map before any node_modules is looked at |
| `ResolutionWalks.OthersWalk` | src/node-resolution.ts:438-457 | Every other package specifier is answered by the walk up |
| `ResolutionWalks.MappedPackage` | src/node-resolution.ts:354-362 | An installed package with an exports map is answered by what the map says and nothing else |
| `ResolutionWalks.UnmappedPackage` | src/node-resolution.ts:354-364 | One without is answered by the file of that name, or else the directory |
| `ResolutionWalks.GlobalFolders` | src/node-resolution.ts:440-457 | The global folders come after every level up to the root, the first of them that answers first |
| `ResolutionWalks.ImportsOrder` | src/node-resolution.ts:381-402 | A `#` name is answered by the first target that answers, under the first condition set that has one, of the nearest config's map |
| `ResolutionWalks.ImportedIs` | src/node-resolution.ts:389-394 | A path in an imports map is a file and never a directory; any other name is resolved again from the map's directory |
| `ResolutionWalks.NoMapNoImport` | src/node-resolution.ts:381-388 | With no imports map in the nearest config a `#` name is not found, whatever is above |
| `ResolutionWalks.RealPathAnswered` | src/node-resolution.ts:416-428 | The answer is the real path of what was found, and the path itself where links are not followed or cannot be |
| `ImportLoops.WalkEnds` | src/node-resolution.ts:381-402 | Where the `#` names a name leads to in the one map consulted can be ranked downwards, every resolution of it ends, within its rank |
| `ImportLoops.NeverEndsIsALoop` | src/node-resolution.ts:381-402 | A resolution never ends if and only if it asks an imports map for one of a set of `#` names each of which leads, past targets that answer nothing, to one of the set again |
| `ImportLoops.AsManyAsNames` | src/node-resolution.ts:381-402 | With a finite set of names closed under the map's `#` targets, as many maps in a row as there are names settle every answer |
| `ImportLoops.NeverEndsByNames` | src/node-resolution.ts:381-402 | So a resolution is endless exactly when it has not ended within as many maps as there are names |
| `ImportLoops.CircularImportNeverEnds` | src/node-resolution.ts:392 | Where a map's first target is the `#` name asked for, the walk has no end |
| `WriteChunks.Cut` | src/native-stream-binding.ts:228-250 | The chunks are the parts' bytes in order; every chunk but the last is exactly the limit and none is empty, empty parts included |
| `WriteChunks.Gather` | src/native-stream-binding.ts:239-247 | A gathered chunk takes bytes from several parts up to the limit, and stops short only when nothing is left |
| `WriteChunks.OneChunk` | src/native-stream-binding.ts:430-432 | Bytes within the limit are one chunk of all of them |
| `WriteChunks.OneCut` | src/native-stream-binding.ts:228-250 | The cut depends on the bytes and the limit alone: there is only one |
| `PipeDriver.NativeStreamDriver.Write` | src/native-stream-binding.ts:405-456 | A write is refused as its case says; it is ended at once exactly where the bounded attempt may be made and threw or came to a status but EAGAIN and ENOSYS; any other is queued last, and a pump at rest takes it up |
| `PipeDriver.NativeStreamDriver.RunPump` | src/native-stream-binding.ts:458-478 | The pump takes up the first queued write: its late attempt awaited, its first chunk given, or the write cancelled when closing |
| `PipeDriver.NativeStreamDriver.Resume` | src/native-stream-binding.ts:479-502 | What the owner answers ends the first write or gives its next chunk, and a write already ended is left alone |
| `PipeDriver.NativeStreamDriver.FinishHead` | src/native-stream-binding.ts:504-524 | A write ends once: out of the queue, its bytes off the queue's size, its descriptor closed |
| `PipeDriver.NativeStreamDriver.End` | src/native-stream-binding.ts:369-392 | A shutdown is sent at once only with nothing queued, and waits otherwise |
| `PipeDriver.NativeStreamDriver.FlushShutdown` | src/native-stream-binding.ts:466-471 | A waiting shutdown is sent once the queue is empty, or cancelled when closing |
| `PipeDriver.NativeStreamDriver.OwnerStopped` | src/native-stream-binding.ts:592-606 | The owner's stop ends every queued write and a waiting shutdown cancelled, and gives nothing more |
| `PipeDriver.GivenLogged` | src/native-stream-binding.ts:491-499 | A chunk given to the owner comes after every byte given before it and belongs to the first unfinished write |
| `PipeDriver.EndedLogged` | src/native-stream-binding.ts:504-524 | A write that ended stays ended as it did, and only a write wholly given ends in success |
| `PipeDriver.OwnerGetsWhatWasAccepted` | src/native-stream-binding.ts:405-502 | While every ended write succeeded, the owner was given the accepted bytes in order, and all of them once nothing is queued |
| `PipeDriver.NothingGivenTwice` | src/native-stream-binding.ts:405-502 | What the owner was given is bytes of the accepted ones at strictly increasing places: none twice, none out of order, however the writes ended |
| `PipeRuns.Step` | src/native-stream-binding.ts:405-606 | One call, answer or turn of the pump: what it accepts is what the call alone says, what was given stays given, and nothing more is given once EOF was sent |
| `PipeRuns.Drive` | src/native-stream-binding.ts:405-606 | After any sequence of calls, answers and turns: what was accepted is what the calls alone say; the owner has bytes of it in order, none twice; a first part of it while no write failed; and all of it once nothing is queued or EOF was sent |
| `SendCredit.ConnectionEnd.PostWrite` | src/native-stream-owner.ts:270-278 | A credited write counts as processed, enters the peer's queue where there is one, and republishes the room |
| `SendCredit.ConnectionEnd.CreditWrites` | src/native-stream-owner.ts:245-262 | A duplicate joins the end's own word, or is refused: closed, credited already, or a window that could pass 2^31 |
| `SendCredit.ConnectionEnd.Uncredit` | src/native-stream-owner.ts:284-294 | A handle's end republishes for the duplicates left, or closes the word at its processed count |
| `SendCreditSafety.FitsIsTrue` | src/native-stream-owner.ts:407-413 | The sign of the wrapped difference is that of the true one while it is under 2^31 |
| `SendCreditSafety.ExchangeOk` | src/native-stream-owner.ts:407-413 | A compare-exchange finds the word it loaded exactly when a multiple of 2^32 was accepted in between; it keeps the bound when that is none, and otherwise breaks it exactly when the write is more than the room really left |
| `SendCreditSafety.DoOk` | src/native-stream-owner.ts:245-299 | Every step of the owner, the processes and the peer keeps it, but a compare-exchange that takes more than the room left |
| `SendCreditSafety.QueueIsBounded` | src/native-stream-owner.ts:407-428 | The peer's queue with all that is still to enter it stays within maxQueuedBytes in every state of a run if and only if no compare-exchange of it takes more than the room left; so always where each comes before 2^32 bytes were accepted since its loads |
| `SendCreditSafety.ReservedIsAccountedFor` | src/native-stream-owner.ts:407-413 | In every run every byte reserved was processed, is on its way or went with its handle |
| `SendCreditSafety.ComparisonIsExact` | src/native-stream-owner.ts:245-263 | Each attempt's wrapped comparison is the true one, because the window and a chunk stay under 2^31, in every run none of whose exchanges takes more than the room left |
| `SendCreditSafety.PublishedRoomIsTheRoom` | src/native-stream-owner.ts:420-428 | The published room is the send buffer less what is queued, on its way, or lost |
| `SendCreditSafety.ClosedAcceptsNothing` | src/native-stream-owner.ts:292-293 | With no handle left nothing more fits, whatever is still on its way |
| `SendCreditSafety.GonePeerHasNoRoom` | src/native-stream-owner.ts:420-430 | Once the peer is gone no room is ever published again, whatever is posted or held after |
| `SendCreditSafety.AWholeWordBetween` | src/native-stream-owner.ts:407-413 | There is a run from a new end, with a send buffer of 2^30, in which a process's exchange comes 2^32 bytes after its loads and the peer's queue with what is on its way exceeds the buffer |
| `HostAddresses.IPv4Bytes` | src/host-sockets.ts:221-231 | A dotted quad is four numbers below 256 without leading zeros, or nothing |
| `HostAddresses.IPv6Bytes` | src/host-sockets.ts:234-265 | The reader's splits, groups and dotted tail give the address's bytes, or nothing for each malformed shape |
| `HostAddresses.LongestRun` | src/host-sockets.ts:271-281 | The run compressed is the first longest one of two or more zero words, or there is none |
| `HostAddresses.LongestIsOne` | src/host-sockets.ts:271-281 | There is only one such run |
| `HostAddresses.PrintWords` | src/host-sockets.ts:282-296 | The printing loop writes the words before the run, `::`, and the words after it or the dotted quad of a mapped address |
| `HostAddresses.IPv6Text` | src/host-sockets.ts:268-297 | Sixteen bytes are printed as their words with that run compressed |
| `HostAddressRoundTrip.TextReadsBack` | src/host-sockets.ts:233-297 | What is printed of any eight words reads back as those words, dotted forms included |
| `HostAddressRoundTrip.PrintAndRead` | src/host-sockets.ts:233-297 | ipv6Bytes(ipv6Text(b)) is b for all sixteen-byte addresses |
| `HostAddressForms.IPv4Exactly` | src/host-sockets.ts:221-231 | A text reads as four bytes if and only if it is their own decimals with dots between them |
| `HostAddressForms.WrittenOut` | src/host-sockets.ts:233-266 | Eight groups with colons between them, in either case and with leading zeros or without, read as their values; any other number of them as nothing |
| `HostAddressForms.DoubleColon` | src/host-sockets.ts:245-263 | A `::` stands for the zero words missing between any groups on its two sides, one at the least, and with none missing there is no address |
| `HostAddressForms.QuadLast` | src/host-sockets.ts:236-244 | A dotted quad at the end is the last two words, after what stands for the other six |
| `HostAddressForms.GroupIs` | src/host-sockets.ts:247-255 | A group is worth its digits in sixteens |
| `HostAddressForms.QuadPrinted` | src/host-sockets.ts:286-294 | An IPv4 address mapped into IPv6 is printed `::ffff:` and its quad, a compatible one `::` and its quad |
| `HostAddressForms.NoQuadPrinted` | src/host-sockets.ts:286-294 | No other address has a dot in its text |
| `Numerals.HexReads` | src/host-sockets.ts:247-255 | A word written in hexadecimal is a group of one to four digits that reads back as the word |
| `Numerals.DecimalReads` | src/host-sockets.ts:226-228 | A byte written in decimal is a part without leading zero that reads back as the byte |
| `PortMapping.PortBridge.RegisterServer` | src/port-bridge.ts:170-183 | A port is registered once, in order, and told to the worker with whether it is the primary |
| `PortMapping.PortBridge.WaitForPrimaryPortMapping` | src/port-bridge.ts:229-247 | A wait is taken only while the port is registered and primary on an attached worker, and asks it |
| `PortMapping.PortBridge.SetPrimaryPort` | src/port-bridge.ts:207-221 | The page's primary changes, waits for another port are rejected, and the two registrations that tell the worker go out in order |
| `PortMapping.PortBridge.UnregisterServer` | src/port-bridge.ts:188-195 | A port goes, with its waits and with the primary it was |
| `PortMapping.PortBridge.HandleReply` | src/port-bridge.ts:487-493 | A reply resolves a wait only when both sides hold the mapping and it came on the current channel |
| `PortMapping.PortBridge.AbortWait` | src/port-bridge.ts:236-242 | A wait its caller gives up ends, once, unresolved |
| `PortMapping.WorkerHost.HandleMainMessage` | public/__sw__.js:197-237 | The worker applies a registration or answers a check with what it holds then |
| `PortMappingSafety.PostsTheChange` | src/port-bridge.ts:170-195 | What registering or unregistering posts makes the same change on the worker's copy |
| `PortMappingSafety.PrimaryPostsTheChange` | src/port-bridge.ts:207-221 | So does what choosing a registered primary posts |
| `PortMappingSafety.UnregisteredPrimaryParts` | src/port-bridge.ts:207-221 | Choosing a primary keeps the two copies equal if and only if the port is registered |
| `PortMappingSafety.ConnectOk` | src/port-bridge.ts:265-270 | An announcement on a new channel, with every pending wait asked again, is the page's whole state |
| `PortMappingSafety.WorkerFollowsPage` | src/port-bridge.ts:170-270 | In every run, over any reconnects, the worker's copy with what is on its way applied is the page's |
| `PortMappingSafety.AnswerMeansMapped` | src/port-bridge.ts:487-493 | A wait an answer ends is resolved, and then the page and the worker of the channel both hold the mapping |
| `PortMappingSafety.SettledOnce` | src/port-bridge.ts:236-240 | A wait ends at most once, and as it ended |
| `PortMappingSafety.NoWaitIsForgotten` | src/port-bridge.ts:252-263 | While the worker lives, a pending wait has its own answer on the way, or its own check of its own port |
| `PortMappingSafety.WorkerCatchesUp` | src/port-bridge.ts:170-270 | In any run, once the worker has taken the channel's init and everything posted on it, it holds exactly what the page does and has answered every wait still pending |
| `PortMappingSafety.GivenUp` | src/port-bridge.ts:236-242 | A wait given up, and no other, ends unresolved, and nothing on its way is touched |
| `ProcessRegistry.ProcessRegistryOwner.CreateScope` | src/process-registry.ts:123-134 | A new scope holds nothing and takes nothing from the others |
| `ProcessRegistry.ProcessRegistryOwner.Allocate` | src/process-registry.ts:135-146 | A new number is valid and nobody's, and becomes this scope's alone: the counter's next that nobody holds, or the first such an allocator answers; the counter fails only when no number above it is free |
| `ProcessRegistry.ProcessRegistryOwner.Claim` | src/process-registry.ts:147-154 | A number the embedder gives is taken exactly when it is valid and not held |
| `ProcessRegistry.ProcessRegistryOwner.Publish` | src/process-registry.ts:161-187 | A run becomes live once, added last in the scope that holds its number, or is there already, or is refused as its case says, and nothing else changes |
| `ProcessRegistry.ProcessRegistryOwner.Forget` | src/process-registry.ts:188-198 | A run's end gives back its own number and no other |
| `ProcessRegistry.ProcessRegistryOwner.Dispose` | src/process-registry.ts:238-247 | A scope's end gives back its own numbers and runs and no other's |
| `ProcessRegistry.GroupIsOwnOrParents` | src/process-registry.ts:174-183 | A process is in the group it asks for, its own or its parent's, and asking for none in its parent's, or its own where it has no parent; its parent is a run of its scope, none, or the embedder's |
| `ProcessRegistry.HeldIsDisjointUnion` | src/process-registry.ts:117-124 | In every state the numbers held are the disjoint union of the scopes' numbers |
| `ProcessRegistry.LiveIsOneRun` | src/process-registry.ts:119-122 | A live process is one run of one scope, which is where its signals go |
| `GuestTicks.GuestLoop.QueueGuestNextTick` | src/guest-loop.ts:82-85 | A tick joins the queue last and, outside a drain, has a drain scheduled |
| `GuestTicks.GuestLoop.DrainGuestNextTicks` | src/guest-loop.ts:98-109 | Ticks run in order with those they queue; a normal return leaves none; a throw leaves the rest with a drain scheduled; a drain inside a drain does nothing |
| `GuestTicks.GuestLoop.WithGuestCallback` | src/guest-loop.ts:111-138 | A callback entered from the loop that returns has its ticks run, and theirs, before it is left; one that throws leaves them to the microtask; one entered with guest code on the stack, in a native await's turn or with ticks left by any runs none |
| `GuestTicks.GuestLoop.RunMicrotask` | src/guest-loop.ts:87-96 | The scheduled drain runs what is queued, once |
| `GuestTicks.DrainedInOrder` | src/guest-loop.ts:98-109 | With no throw everything queued runs, first in first, and only a throw leaves anything |
| `SourceEdits.ApplySourceEdits` | src/source-edits.ts:7-20 | One pass over descending disjoint edits is the edits applied one after another |
| `SourceEdits.ApplyReplacements` | src/runtime.ts:925-945 | Any in-range edits, overlapping ones through the fallback, come out as applied one by one in descending order |
| `SourceEdits.SortedIs` | src/runtime.ts:926 | The sort keeps every edit once and puts them in descending order |
| `SourceEdits.SortIsStable` | src/runtime.ts:926 | Edits of one place stay in the order they were given |
| `SourceEdits.InsertionsReverse` | src/source-edits.ts:1-6 | Any number of insertions at one offset stay in their order through the sort and come out last first |
| `DocumentPrelude.PreludeStream.Transform` | public/__sw__.js:851-863 | A chunk is held while a doctype may still arrive, and the prelude is put in once its place is sure |
| `DocumentPrelude.PreludeStream.Flush` | public/__sw__.js:864 | A document that ended without a doctype gets the prelude at its start |
| `DocumentPrelude.DoctypeIs` | public/__sw__.js:857 | The doctype found is exactly the leading one there is: white space, the opening in any case, on to the first `>` |
| `DocumentPrelude.DecidedStays` | public/__sw__.js:856-862 | A place decided from what has arrived is the whole document's, whatever follows |
| `DocumentPrelude.HeldOnlyWhileUnsure` | public/__sw__.js:859-861 | A document is held back only within its first 2048 bytes, and there only while bytes may still come that make a doctype of what is held |
| `DocumentPrelude.Stream` | public/__sw__.js:831-869 | However a document is cut into chunks, the prelude is in it once, after its leading doctype or at its start |

## Left out

- RuntimePunycode.PunycodeDecode: says nothing where the library's decoder overflows or meets a non-basic unit; the engine's own has no 31-bit check there and its arithmetic is a double's.
- Punycode: `toASCII`, `toUnicode` and the splitting of a domain into labels.
- StdinRing: `close` is called once, after earlier writes resolved, and reads are of positive length, as the layout's rules say; fair scheduling is assumed nowhere, so that a step due is ever taken is not claimed; a realm without `waitAsync` is not modelled.
- NativeQueueRuns.StopWakesSleepers: only a writer already asleep; what becomes of every other one is `NativeQueueStop.UnlocksUnlessItMisses`.
- FlowStream: request uploads, and the head's status and headers, which only accompany the start; a server is assumed to call start once, then chunks, then end.
- GuestSimulation.RewritingKeepsMeaning: of the core language, whose evaluator has no `with` or direct `eval` (the rewriter declines those bodies), no sloppy-mode hoisting, no rest elements, `finally`, labels, `break`, generators, `await`, private members, `super` or inheritance; assigning to a `const` is not told apart from assigning to a `let`; a guest name missing on the guest's global reads undefined.
- GuestNames: the walk gives the rewritten tree, where the source pushes text edits against source positions; the text of a function (`toString`) and the assembly of the edits are apart (`SourceEdits` is the assembly). The scope's own name is a node of its own, because bodies that contain it are never given to the rewriter (`src/runtime.ts:321`). The wrap round a `new` callee is its value.
- GuestNames: names written with escapes, which make the body decline, imports and exports, tagged templates and `for in`.
- NodeResolver.Resolver.Resolve: one tree for all that is kept (the source keeps missing configs by filesystem object and found ones by path alone); probe counters and other instruments are left out; a JSON text, `resolve.exports` and the filesystem are functions of the world.
- Resolution: `workspaceMembers` is one set for a resolution.
- PipeDriver: reading, `ref` and `unref`, pairing, the completion callbacks' own order as microtasks, `bytesWritten`, the failure of closing a duplicated descriptor, and the duplication itself, whose new number is any not in use.
- SendCredit: ordinary writes through the same handle, which the room does not count; and the loads of the two words are one step.
- NativeStreamScope: the waiting `write` and `tryWrite` of the owner, descriptors passed over a pipe, inheritance.
- PortMapping: hostnames, own documents, keepalive, flow-control limits of a registration; a worker without the port-mapping capability; the first connection announces as a later one does.
- HostAddresses: zones, `sockaddr` framing, control messages.
- ProcessRegistry: signal handlers and the signal-zero and group queries, and the descriptive parts of an identity (arguments, directory, environment, start time).
- GuestTicks: time accounting, and async functions' own scheduling: a callback is the ticks it queues, the callbacks the engine enters from it, the native awaits it resumes, and whether it throws; one whose throw the guest catches is one that does not throw.
- SourceEdits.ApplyReplacements: edits within the text, as its callers make them.
- DocumentPrelude.Stream: documents whose first 2048 bytes are ASCII; a byte-order mark or another multi-byte character there is measured after decoding.
- Regular-expression lowering of modules, TLS, the kernel's own sockets and files, service worker routing, trace and instrument modules: approximate by design, or plumbing over host objects.
