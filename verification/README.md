# Verified models of the sf-veritas Go SDK

Dafny models of the parts of the SDK that carry hard guarantees, with proofs. `dafny verify
dfyconfig.toml` checks the whole project.

- **The instrumenter** (`MiniGo`, `MiniGoBounds`, `Instrumenter`, `InstrumenterMeaning`, `SpanBrackets`,
  `InstrumenterScope`). A small Go with assignment, conditionals, loops, calls with several results, `return`,
  `panic`, deferred closures and `recover` has a big-step semantics following "Defer statements", "Handling
  panics" and "Return statements" of the Go Language Specification. The compiler pass is a function on
  declarations, and methods on `FuncNode` that edit the syntax nodes in place are proved equal to it. A
  simulation shows that rewriting any set of functions preserves meaning; a second one shows that the spans of a
  rewritten program are well bracketed. `InstrumenterScope` resolves the names of injected code through the
  function, file, package and universe blocks of Go, and says exactly when they denote what they must.
- **The debug session** (`DebugSession`, `DebugSessionProtocol`). The locked sections are functions on the locked
  state and methods of `Tracker`; lock-free loads, locked sections and callbacks of any number of goroutines are
  the steps of a transition system, and results hold for every sequence of steps.
- **The uplink** (`Uplink`): the reconnect loop over `real`, and directives and stops acting on the session and
  the rules together.
- **User attribution** (`UserAttribution`, `AttributionApi`, `AttributionProtocol`): what each operation means for
  the set of active users, the methods that compute it with nested maps, and the concurrent system with its buffer
  and debounce timer.
- **The transmitter** (`Transmitter`): the worker as a class, and as a step system shared with any number of
  senders.
- **Exception deduplication** (`ExceptionDedup`): the ring in place, and the theorem about its size.
- **Spans** (`SpanStart`, `SpanEnd`): gates, layered settings, what spans hand down along contexts, and what ending one
  posts and charges to the session.
- **Capture rules** (`CaptureRules`, `Conditions`): the index by function name against a scan of the rules in wire
  order, and lists of conditions.
- **Goroutine traces** (`GoroutineRegistry`): the middleware around a handler, and many goroutines with nested
  middleware.
- **Domain exclusion** (`DomainExclusion`): the index built at start-up against the patterns it was built from.

Clocks, random draws, fresh ids, header and JSON parsing, globbing, `ParseFloat`, `ToLower` and `TrimSpace`
(in conditions) are parameters of the members that need them, so the results hold for whatever they answer.

## Where the code and its promises differ

- `README.md:95` of the repository says that capture stops on TTL or budget expiry. The session ends, but no way
  of ending it clears the rules: `OnlyDirectivesChangeRules` and `RulesOutliveSession`.
- `cmd/sfveritas-instrument/main.go:15` promises never to emit code that does not compile. Names of injected code
  that do not resolve break the promise: `PrologueResolvesIff` and `NamesResolveIff` give the exact condition under
  which they do, and `AliasBreaksImport`, `PackageNameBreaksImport` and `TypeParameterBreaksPrologue` inputs for
  which they do not.
- Rewriting can change a program that passes a nil context: `NilContextMatters`. For all other calls of the modelled
  language, whose contexts are those of the standard library, meaning is preserved:
  `InstrumentationPreservesMeaning`.
- An update of a live session may lower its budget below what it has used: `UpdateCanExhaustBudget`, with the exact
  condition in `HasRoomIff`.
- When rules share an id, the post-call decision can depend on the order of iteration: `OrderCanMatter` gives two
  such rules, and `OrderIrrelevantIff` the exact condition.
- A middleware called inside a handler on the same goroutine takes the handler's trace away: `OwnTraceIff`,
  `NestingLosesTrace`.

## Model

| member | source | states |
|---|---|---|
| `MiniGoBounds.StableFunc` | cmd/sfveritas-instrument/main.go:405-465 | the semantics used for the pass is independent of its bounds: any outcome but running out is the same under larger ones |
| `Instrumenter.FindInstrumentableFunctions` | cmd/sfveritas-instrument/main.go:385-403 | selects, in order, exactly the functions with a body of more than one statement that are not `init` or `_` |
| `Instrumenter.FindContext` | cmd/sfveritas-instrument/main.go:495-508 | the loop finds the context parameter the meaning theorems are about |
| `Instrumenter.FindsFirstContext` | cmd/sfveritas-instrument/main.go:495-508 | that is the first name of the first named field of context type, and there is one if any field qualifies |
| `Instrumenter.CollectNames` | cmd/sfveritas-instrument/main.go:511-528 | the loops collect the parameter names recorded as arguments, in order |
| `Instrumenter.CollectsOtherNames` | cmd/sfveritas-instrument/main.go:511-528 | those are exactly the names of non-context fields other than `_` |
| `Instrumenter.CollectPush` | cmd/sfveritas-instrument/main.go:516-526 | each parameter field adds its names, blanks aside, after those of the fields before it; a context field adds none |
| `Instrumenter.KeyedRecords` | cmd/sfveritas-instrument/main.go:553-572 | a map built by the pass holds each variable's value under its own name, or under "_sfRet" and the decimal number of a result the pass named, in order |
| `Instrumenter.DigitsAreDecimal` | cmd/sfveritas-instrument/main.go:537-543 | the numbers in generated names and positional keys are written in decimal, without leading zeros |
| `Instrumenter.NamedResultsAt` | cmd/sfveritas-instrument/main.go:478-490 | an unnamed result is named by the number of result variables before it, counting every name of earlier fields; named ones keep their names |
| `Instrumenter.FuncNode.EnsureNamedReturns` | cmd/sfveritas-instrument/main.go:470-492 | names every unnamed result in place and returns all result names in order |
| `Instrumenter.FuncNode.Instrument` | cmd/sfveritas-instrument/main.go:409-465 | the rewritten declaration is the one the meaning theorems are about: span start, context reassignment, deferred block, then the old body |
| `InstrumenterMeaning.ClosureRuns` | cmd/sfveritas-instrument/main.go:597-632 | the injected closure ends the span once, with nil after reporting when a panic is in flight, which it raises again with the same value; it changes nothing the program can see |
| `InstrumenterMeaning.PrologueSame` | cmd/sfveritas-instrument/main.go:444-462 | after the prologue the frame corresponds to the one it was put in: the context parameter is equal up to the SDK's keys |
| `InstrumenterMeaning.SimDefers` | cmd/sfveritas-instrument/main.go:461-464 | user closures that recover, panic again or change results do the same with the injected closure below them |
| `InstrumenterMeaning.InstrumentationPreservesMeaning` | cmd/sfveritas-instrument/main.go:405-492 | every call of a program in which any set of functions was rewritten ends with the same results or panic value, globals, user events and calls, unless a nil context is passed to a rewritten function |
| `InstrumenterMeaning.NilContextPanics` | cmd/sfveritas-instrument/main.go:426-434 | a rewritten function entered with a nil context panics before its body starts |
| `InstrumenterMeaning.NilContextMatters` | cmd/sfveritas-instrument/main.go:426-434 | a function eligible for rewriting that returns normally on a nil context and panics once rewritten |
| `SpanBrackets.SpansAreBracketed` | cmd/sfveritas-instrument/main.go:444-464 | every call that ends adds a well-bracketed word of span events in which each span id is started once and ended once |
| `SpanBrackets.BracketDefers` | cmd/sfveritas-instrument/main.go:597-632 | whatever the user's closures do, they add a bracketed word and leave the injected closure, deferred first, to be the last to close the span |
| `SpanBrackets.EndReceivesResult` | cmd/sfveritas-instrument/main.go:583-632 | the first event of an activation starts its span under the function's qualified name with each named argument's value on entry under its own name; the last ends it with exactly the values returned, or with nil just after reporting the panic that leaves the function, with arguments and results under their own names |
| `InstrumenterScope.PrologueResolvesIff` | cmd/sfveritas-instrument/main.go:309-320 | the names in the code injected into a function denote what they must exactly when no result is `_`, the context parameter is not `_` and is a real context, no parameter, result or type parameter shadows a needed name, and the file and its package are ready |
| `InstrumenterScope.NamesResolveIff` | cmd/sfveritas-instrument/main.go:314-381 | after the import step the file's blocks are legal and `sfveritas` denotes the SDK exactly when they were legal, no needed predeclared name is redeclared in the file or the package, and the SDK was imported under that name, or not at all with the name free in both |
| `InstrumenterScope.AliasBreaksImport` | cmd/sfveritas-instrument/main.go:352-359 | an aliased import of the SDK leaves the name undefined |
| `InstrumenterScope.PackageNameBreaksImport` | cmd/sfveritas-instrument/main.go:362-381 | in a package that declares `sfveritas`, the import added to any file without the SDK is illegal |
| `InstrumenterScope.TypeParameterBreaksPrologue` | cmd/sfveritas-instrument/main.go:546-551 | a type parameter named `string` shadows what the injected map literals need |
| `DebugSession.Tracker.Activate` | funcspan_session.go:67-106 | rejects a directive without id or not in the future; otherwise updates the session with the same id, keeping its counts, or starts one and reports the superseded one once |
| `DebugSession.Tracker.Deactivate` | funcspan_session.go:110-121 | ends the active session, if any, and reports it once |
| `DebugSession.Tracker.RecordSpanEmitted` | funcspan_session.go:126-154 | counts the span and ends the session when it reaches a positive budget, spans before bytes |
| `DebugSession.Tracker.CheckTTL` | funcspan_session.go:158-176 | before its expiry a session is left alone; from its expiry on it is ended and reported once, with its counts, as expired |
| `DebugSessionProtocol.ExactlyOnceSessionEnd` | funcspan_session.go:67-176 | in every interleaving sessions created = callbacks made + pending + one if active, and no session is snapshotted or reported twice |
| `DebugSessionProtocol.ExpiryEndsIff` | funcspan_session.go:162-175 | in every reachable state the timed section ends the active session if and only if its expiry has come, and otherwise changes nothing |
| `DebugSessionProtocol.EndingEnds` | funcspan_session.go:110-121 | in every reachable state ending takes the session active by then, with its counts and the given reason |
| `DebugSessionProtocol.RecordLands` | funcspan_session.go:130-153 | in every reachable state a record lands in the session active by then and ends it exactly when it uses up a budget, spans before bytes |
| `DebugSessionProtocol.StepsGoOn` | funcspan_session.go:127-160 | unlocked loads lead on to the locked sections exactly when a session is active, and a snapshot taken is handed to the callback |
| `DebugSessionProtocol.CountsConserved` | funcspan_session.go:77-154 | in every interleaving records that landed under the lock = counts of ended sessions + those of the active one |
| `DebugSessionProtocol.BudgetsRespected` | funcspan_session.go:126-154 | without same-id updates a session never records more than its span budget, a span-budget end has exactly the budget, and a byte budget is overshot by less than the last span |
| `DebugSessionProtocol.HasRoomIff` | funcspan_session.go:77-87 | being under the span budget survives a step exactly when it is not an update to a budget already used up |
| `DebugSessionProtocol.UpdateCanExhaustBudget` | funcspan_session.go:77-87 | such an update is reachable |
| `DebugSessionProtocol.OnlyDirectivesChangeRules` | uplink.go:248-268 | in every interleaving rules are armed exactly when the last directive that took effect on them armed some, however many sessions ended since |
| `DebugSessionProtocol.RulesOutliveSession` | funcspan_session.go:158-176 | a reachable state with no session, its end reported, all goroutines idle and the rules still armed |
| `Uplink.Run` | uplink.go:105-135 | every wait comes from min(30, 1.5^k), k turns after the last connection or the first turn, and the loop stops at the first quit it notices |
| `Uplink.BackoffSince` | uplink.go:107-133 | counted from the last turn that connected, or the first, the backoff starts at 1 and grows by half with each turn, cut off at 30 |
| `Uplink.BackoffBounds` | uplink.go:107-133 | the backoff is within 1 and 30 and is 30 exactly from the ninth failure on |
| `Uplink.WaitBounds` | uplink.go:123-124 | every wait is within 1 and 30 and, before and after clamping, within a fifth of the backoff |
| `Uplink.WaitIs` | uplink.go:123-124 | the wait is 0.8 of the backoff plus 0.4 of it times the number drawn, cut to between 1 and 30 |
| `Uplink.Parsed` | uplink.go:255-260 | a well-formed byte budget is kept, and one that is missing or malformed counts as none |
| `Uplink.Client.HandleRules` | uplink.go:243-271 | empty rules clear and cancel; an unacceptable directive changes nothing; any other updates the session, reports the superseded one, replaces the rules and is acknowledged, in this order |
| `Uplink.Client.Relay` | uplink.go:275-287 | the session that ended is reported exactly when a socket is open, and nothing else is sent |
| `Uplink.Client.Stop` | uplink.go:303-319 | a stop ends and reports the session, leaves the rules, and never closes quit twice |
| `UserAttribution.DiffReplays` | user_attribution.go:99-215 | replaying the events of an operation, in whatever order the maps are visited, has the outcome the operation is for |
| `UserAttribution.DiffToggles` | user_attribution.go:99-215 | no operation emits an event that leaves the active set unchanged |
| `UserAttribution.OutcomeIs` | user_attribution.go:99-215 | whom each operation leaves active: those active before keep their start, and new ones start now |
| `UserAttribution.DiffStamps` | user_attribution.go:118-195 | all events of a call carry its session and time, adds come before ends, and none is both added and ended |
| `UserAttribution.TogglesAlternate` | user_attribution.go:99-215 | such a log alternates add and end for each user, and ends with add exactly for the active ones |
| `UserAttribution.TogglesBalance` | user_attribution.go:99-215 | adds minus ends is one for an active user and zero for any other |
| `AttributionApi.Attribution.Emit` | user_attribution.go:54-67 | appends one event and keeps a timer armed for a configured buffer |
| `AttributionApi.Attribution.AddActiveUser` | user_attribution.go:99-122 | an untrimmed or repeated id starts no second interval; a blank one does nothing |
| `AttributionApi.Attribution.RemoveActiveUser` | user_attribution.go:125-151 | ends the interval if there is one, and forgets sessions without users |
| `AttributionApi.Attribution.SetActiveUsers` | user_attribution.go:155-196 | leaves exactly the trimmed, non-blank ids active, keeping the start of those already active, and emits adds then ends |
| `AttributionApi.Attribution.Rediff` | user_attribution.go:171-189 | the locked section computes each missing user once as an add and each unwanted one once as an end |
| `AttributionApi.Attribution.ClearActiveUsers` | user_attribution.go:199-215 | ends every interval of the session and no other |
| `AttributionApi.NormTrims` | user_attribution.go:47-49 | exactly the white space around an id is dropped |
| `AttributionApi.TargetSet` | user_attribution.go:160-165 | the loop collects the users a list names |
| `AttributionApi.TargetsAre` | user_attribution.go:160-165 | those are the ids of the list, trimmed, that are not blank |
| `AttributionProtocol.AttributionBalance` | user_attribution.go:54-215 | in every interleaving, adds minus ends over drained, buffered and in-flight events is one exactly for active users, and the events computed replay to the active set |
| `AttributionProtocol.SerialLogReplays` | user_attribution.go:99-215 | when calls do not overlap, the whole log replays to the active set and alternates for each user |
| `AttributionProtocol.NoLostFlush` | user_attribution.go:54-95 | with the SDK configured, a non-empty buffer always has a flush on its way, and every event goes to exactly one drain, in order, which posts it |
| `AttributionProtocol.EmitHeldIff` | user_attribution.go:63-66 | an emit leaves the buffer without a timer exactly when the SDK is not configured and none is pending |
| `AttributionProtocol.CallTakesEffect` | user_attribution.go:105-121 | a call changes the active set to its outcome at once and has its events still to emit |
| `AttributionProtocol.EmitsAndDrains` | user_attribution.go:54-95 | an emit appends its event; a drain, by hand or by a timer, takes the whole buffer and posts it if there is any and the SDK is configured |
| `Transmitter.Worker.NonBlockingPost` | transmitter.go:234-251 | a send is accepted at the end of the channel unless it is full, and then dropped |
| `Transmitter.Worker.Flush` | transmitter.go:159-163 | posts the whole batch in order |
| `Transmitter.Worker.Drain` | transmitter.go:129-148 | receives what was buffered on entry and posts everything accepted |
| `Transmitter.Worker.Run` | transmitter.go:108-151 | every turn does its work: an item ready moves from the head of the channel to the end of the batch, posted when full; a tick posts the batch; the first quit posts everything accepted and returns |
| `Transmitter.Worker.TakeTurn` | transmitter.go:117-149 | one case of the loop, with what was sent before it |
| `Transmitter.Worker.Arrive` | transmitter.go:239-250 | of several sends as many as fit are accepted, in order |
| `Transmitter.FifoConservation` | transmitter.go:108-163 | in every interleaving accepted items, in order, are the posted ones, the batch, then the channel |
| `Transmitter.DroppedOnlyWhenFull` | transmitter.go:239-250 | an item is dropped exactly when the channel is full |
| `Transmitter.TickDelivers` | transmitter.go:124-128 | from every reachable selecting state with a batch, a tick and one post more than there are items leave the batch posted in order and empty, whatever is sent in between |
| `Transmitter.SelectingServes` | transmitter.go:118-142 | from every reachable selecting state a receive takes the head of the channel into the batch, to be posted when it is full, and a closed quit starts a drain of exactly what is buffered |
| `Transmitter.BoundedDrain` | transmitter.go:129-149 | after quit the worker never blocks, stops within a fixed number of its own steps whatever is sent, and receives exactly the snapshot |
| `Transmitter.ShutdownDelivers` | transmitter.go:255-269 | when the worker has stopped, everything accepted before quit closed was posted and the rest is what remains in the channel; quit is closed at most once |
| `Transmitter.MarkIsSetAtClose` | transmitter.go:263-267 | the first shutdown fixes which items count as accepted before quit |
| `ExceptionDedup.Ring.IsDuplicateException` | exception_handler.go:129-144 | answers from the last 64 reports younger than five seconds, and records exactly what it lets through |
| `ExceptionDedup.RunIsSpaced` | exception_handler.go:129-144 | equal messages within 65 consecutive reports are five seconds apart |
| `ExceptionDedup.RepeatNeedsManyMessages` | exception_handler.go:111-144 | a message repeated within five seconds has more than 64 distinct messages reported in between |
| `ExceptionDedup.NoRepeatAmongFew` | exception_handler.go:111-144 | calls with at most 64 distinct messages never get one through twice within five seconds, for any number of calls |
| `ExceptionDedup.ThresholdIsTight` | exception_handler.go:112-114 | the guarantee for n messages holds if and only if n is at most 64 |
| `SpanStart.IsRejected` | function_span.go:123-209 | the gates in the code's order reject the spans that are not recorded |
| `SpanStart.RecordedIff` | function_span.go:123-209 | a span is recorded exactly when its context does not suppress it, no source switches it off, and every source sampling at a rate below 1 drew below its rate |
| `SpanStart.SmallerDrawsRecord` | function_span.go:148-208 | a span recorded at some draws is recorded at any smaller ones |
| `SpanStart.SamplingExtremes` | function_span.go:156-162 | rates of at least 1 make no draw matter, and a global rate of 0 drops every span |
| `SpanStart.ZeroRatesDrop` | function_span.go:143-154 | so does a rate of 0 in an override or in the file |
| `SpanStart.EffectiveSettings` | function_span.go:166-280 | overwriting layer by layer gives each setting the value of the highest-priority layer that sets it; non-positive limits of rules and overrides set nothing |
| `SpanStart.CaptureDecided` | function_span.go:166-271 | the override decides what is captured, else the inherited rule, else the rule found, else the file where set, else the global configuration |
| `SpanStart.LimitsDecided` | function_span.go:170-277 | the same order for each limit, a limit that is not positive leaving it to the next |
| `SpanStart.ExpansionDecided` | function_span.go:172-278 | JSON expansion follows the override, then the file, then the global configuration |
| `SpanStart.ChildrenDecided` | function_span.go:173-279 | so does capturing children, but a debug rule with depth left below the span comes before the file |
| `SpanStart.StartSpan` | function_span.go:120-326 | the span started: its settings, rule, parent, kept arguments and the context its children get |
| `SpanStart.SpanRecords` | function_span.go:282-325 | the ids, rule and arguments of a recorded span, the arguments only if captured within a limit that is not zero |
| `SpanStart.ContextHandedOn` | function_span.go:298-308 | what the children's context answers for every key |
| `SpanEnd.Recorder.End` | function_span.go:358-413 | a no-op span and one failing its post-call conditions leave no trace; any other is posted, its return value only if captured within a positive limit, and then charged to the active session |
| `SpanStart.SuppressionIsSticky` | function_span.go:123-127 | below a suppressing span every descendant is a no-op and emits nothing |
| `SpanStart.SuppressesIff` | function_span.go:262-303 | a span suppresses its children exactly when its settings say so, and without an override never while depth is left |
| `SpanStart.ChildCtxHolds` | function_span.go:298-308 | what a child context answers for suppression, propagation and span id |
| `SpanStart.HandsDown` | function_span.go:217-232 | a recorded span hands down one depth less, even to zero; a no-op one hands down what it got |
| `SpanStart.PropagationDepthExact` | function_span.go:214-260 | along every chain below a span that matched a rule with depth d, exactly the first d recorded descendants inherit its rule and capture flags, and the next looks for a rule afresh |
| `CaptureRules.CompileRule` | funcspan_rules.go:122-154 | the compiled rule takes everything the wire rule sets, and its sample rate is in (0, 1], the wire rate if that is |
| `CaptureRules.RulesPush` | funcspan_rules.go:112-154 | a wire rule that parses and has an id and a function is compiled after those before it, and any other adds nothing |
| `CaptureRules.Store.SetRules` | funcspan_rules.go:110-160 | the index holds the well-formed rules by function in wire order, malformed ones skipped, and is dropped when empty |
| `CaptureRules.Store.EvaluateRulePreCall` | funcspan_rules.go:164-192 | finds the first rule in wire order whose name, file, conditions and sample pass |
| `CaptureRules.PassesIff` | funcspan_rules.go:170-179 | what passing means: name, file and conditions, and for a sampling rule a number drawn at most its rate, each such rule drawing the next |
| `CaptureRules.FileMatchesIff` | funcspan_rules.go:215-230 | a file matches by glob on its path or base name, or by suffix if the pattern has no glob characters; no pattern and `*` match all |
| `CaptureRules.FilterFindsFirst` | funcspan_rules.go:164-192 | looking only at the function's rules finds the same rule with the same samples drawn |
| `CaptureRules.Store.EvaluateRulePostCall` | funcspan_rules.go:196-213 | permissive without rules, id or match; with unique ids the rule with the id decides, and emits without post-call conditions or when they hold |
| `CaptureRules.PostCallAgreesWithScan` | funcspan_rules.go:201-211 | with unique ids the search agrees with a scan by id, whatever order the index is visited in |
| `CaptureRules.OrderIrrelevantIff` | funcspan_rules.go:201-211 | the answer is the same for every order exactly when the functions with a rule of that id decide alike |
| `CaptureRules.OrderCanMatter` | funcspan_rules.go:201-211 | two well-formed rules that share an id, whose index answers differently for two orders when the span returned nothing |
| `Conditions.EvalConditions` | funcspan_rules.go:232-247 | the short-circuiting loop is "all" or "some" on non-empty lists and true on empty ones |
| `Conditions.DeMorgan` | funcspan_rules.go:232-302 | flipping every == and != and the logic negates a non-empty list, for numbers, NaN and strings alike |
| `Conditions.OrderComplementIff` | funcspan_rules.go:291-306 | < and >=, and > and <=, are complements exactly when both sides are numbers and neither is NaN |
| `Conditions.OthersCompare` | funcspan_rules.go:281-306 | without two numbers equality is that of the texts and no order holds, and a NaN equals nothing and is in no order |
| `Conditions.TextOperators` | funcspan_rules.go:307-310 | starts_with and contains look for the value at the start of, or within, the text |
| `Conditions.Spellings` | funcspan_rules.go:249-270 | every spelling of an operator normalizes to it |
| `GoroutineRegistry.TraceFor` | network_middleware.go:69-92 | the trace registered is never empty: the header, else the one held, else a new one |
| `GoroutineRegistry.Server.Middleware` | network_middleware.go:51-139 | instrumented, it leaves no entry behind, by return or panic, lets no panic out, and shows a handler that calls no middleware its own trace; otherwise it serves the handler as it is, panics included; in both cases what the handler and those it calls leave behind is the account of serving each once |
| `GoroutineRegistry.ServedOnce` | network_middleware.go:53-118 | in that account, when nothing panics, every look of every handler is made exactly once, instrumented or not, and nothing is caught |
| `GoroutineRegistry.RegisteringShows` | network_middleware.go:68-114 | a request that enters and registers shows its own trace and changes no other |
| `GoroutineRegistry.RegistryMirrorsStacks` | goroutine_local.go:33-64 | in every interleaving, nested calls included, each goroutine's entry is what its own stack of calls left |
| `GoroutineRegistry.BoundedByInFlight` | goroutine_local.go:20-21 | nothing is registered for a goroutine outside the middleware, and there are never more entries than goroutines in flight |
| `GoroutineRegistry.OwnTraceIff` | goroutine_local.go:52-64 | a handler sees its own trace exactly unless a middleware called inside it has cleared the entry |
| `GoroutineRegistry.FlatRegistry` | network_middleware.go:110-115 | without nesting the keys are exactly the goroutines between set and clear, each with its own trace |
| `GoroutineRegistry.NestingLosesTrace` | network_middleware.go:113-115 | from any state, a nested middleware that finishes leaves the outer handler without a trace |
| `DomainExclusion.StripPort` | network_transport.go:215-218 | the part of the host before the first colon |
| `DomainExclusion.Build` | config.go:203-213 | the exact set and the suffixes are those of the patterns and nothing else |
| `DomainExclusion.IsDomainExcluded` | network_transport.go:210-232 | the look-up answers from the exact set and the suffixes for the lowercased host without its port |
| `DomainExclusion.IndexRefinesScan` | network_transport.go:210-232 | for all patterns and hosts the index answers as a scan of the patterns does |
| `DomainExclusion.ExactIff` | network_transport.go:215-224 | a pattern that is not a wildcard covers exactly the host it names, whatever its case and port |
| `DomainExclusion.OrderAndRepeatsIrrelevant` | config.go:206-213 | neither the order of the patterns nor repetitions matter |
| `DomainExclusion.WildcardIff` | config.go:208-209 | `*.domain` covers what is below the domain and not the domain itself |

## Left out

- InstrumentationPreservesMeaning: does not model `runtime.Goexit`, goroutines started by user code, closures other than deferred ones, block scoping (a function has one environment), comparison of contexts (a type error here), user `MarshalJSON`, `Error` and `String` methods that the SDK calls on arguments and results, or contexts of user types, whose `Value` method the SDK calls and which may panic. User code uses no `_sf` names, and no chosen function has a context parameter named `_`, which `PrologueResolvesIff` excludes anyway.
- InstrumentationPreservesMeaning: the theorem is per bound; divergence is running out of every bound, on both sides alike.
- EndReceivesResult: the values handed to `End` are those of the results at the end of the injected closure; formatting and size limits of the emitted text are not modelled.
- PrologueResolvesIff: is about names only, not about types or the placement of comments; which type expressions denote a context in a signature is a parameter, and imports of `C` are left out, as the wrapper skips such files.
- FuncNode.Instrument: file handling, CGO detection, import configuration and argument parsing of the wrapper are left out.
- Ring.IsDuplicateException: the clock is assumed to be more than five seconds after the zero time of Go, year 1; saturation of `time.Sub` after 292 years then makes no difference.
- Tracker.RecordSpanEmitted: does not model 64-bit wrap-around of the counters.
- BudgetsRespected: speaks of sessions never updated in place; `HasRoomIff` says what updates can do.
- Client.HandleRules: one goroutine at a time; interleavings with other goroutines are in `DebugSessionProtocol`, where arming the rules is a step of its own. Write errors on the socket are ignored, as in the code.
- Worker.Run: sends arrive between turns of the loop; sends during a flush or the final drain are in the step system.
- Attribution.Emit: the buffer is used by one goroutine at a time; the two locks and the timer goroutines are in `AttributionProtocol`.
- EvalConditions: the deferred recover that turns a panicking `String` method into false is not modelled; float64 arithmetic is represented by finite reals, infinities and NaN.
- SetRules: JSON decoding is a parameter (a rule that does not parse is `None`), and sample rates are real numbers, not NaN.
- StartSpan: header parsing, the `.sailfish` look-up, JSON expansion and sampling draws are inputs; `runtime.Caller` and span ids are inputs, and a no-op span still sets the current span id, as in the code, so no claim is made that every parent is emitted.
- Server.Middleware: HTTP bodies, page-visit ids and the function-span header are left out; one goroutine at a time, with interleavings in the step system.
- IsDomainExcluded: `ToLower` is a parameter; that it adds no colon is an assumption of `PortPatternIsInert` only.
- HTTP sending, gzip, buffer pools, WebSocket dialling, pings and message decoding: input and output.
- Environment and git detection, service identification, log formatting, print capture, the gin wrapper, truncation strings and body capture: no property beyond easy bounds.
