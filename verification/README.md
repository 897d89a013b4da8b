# LCode desktop core: verified models

A Dafny model of the parts of the LCode workspace whose correctness depends on order, interleaving or exact
syntax, with proofs about it. `dafny verify dfyconfig.toml` checks everything.

Six areas are modelled.

* **PiP sessions.** The transactional session coordinator (`PipState`, `PipCoordinator`) with its bounded stores
  (`PipInvariants`) and what its operations mean to a client (`PipLifecycle`), the "newest writer wins" socket server in
  front of it (`PipServer`) and what it delivers (`PipDelivery`), the newline framing (`PipFraming`), what one writer can
  know of another (`PipIsolation`) and how a snapshot relates to the events it stands for (`PipReplay`).
* **The model-option language.** Tokenizer, recursive-descent parser, evaluator, memoising compilers and ordered JSON
  merge patches (`CelTokenizer`, `CelParser`, `CelEvaluator`, `ModelOptionMaps`, `MergePatch`), each against a reference:
  a lexical grammar (`CelLexing`), a grammar (`CelGrammar`), a printer (`CelRoundTrip`), a semantics by rules
  (`CelSemantics`), and what a request is turned into (`OptionMeaning`).
* **Refresh loops.** The single-flight loops of the registry and account services (`RegistryRefresh`,
  `AccountRefresh`) over shared waiters (`RefreshWaiters`), what calls ask of them and what becomes of it
  (`RegistryRequests`, `AccountRequests`), and the first reads that share a loop in flight (`AccountReads`).
* **Built-in releases.** The lease by which processes take turns (`RemoteLease`), the refresh it protects
  (`RefreshCycle`) and the shared active file (`ActiveRelease`).
* **The snapshot cache** (`SnapshotCache`).
* **Ordering and membership.** Owned order, the model commands of the config service, the resolver's order and
  publication, and the registry's indexes (`OwnedOrder`, `ModelMembership`, `ProviderRegistry`).

Concurrent code is a state machine: the code between two awaits, or inside one file lock, is one step, and a run is
any sequence of enabled steps. Each component has a specification on values, imperative code in the shape of the
original that is proved to refine it, and theorems about the specification over all inputs or all runs. What happened
(`settled`, `published`, `adopted`, `rounds`, `lastRequestAt`) is recorded in ghost fields of the classes, so that it
can be spoken about; the original has no such fields. It has no `clock` either, with which requests and rounds are
stamped.

## What turned out false

Some properties one would expect do not hold of the code. Each has its exact condition and a concrete run or input.

* A lease is not exclusive when processes use several endpoint keys: overwriting the unexpired lease of another key
  makes the first endpoint free again (`RemoteLease.DisplacementBreaksExclusivity`, `RemoteLease.ExclusiveRun`).
* The snapshot cache can hold a file's content under the signature of its absence, because all absences look alike
  (`SnapshotCache.DeletionFoolsTheCache`, `SnapshotCache.AgreesExactly`).
* A rename moves a model when the stored order still has an entry for the new id from the time when it was an
  inherited model (`ModelMembership.RenameCanMove`, `ModelMembership.RenameInPlace`).
* A superseded account round may install the fail-closed first snapshot (`AccountRefresh.SupersededRoundFailsClosed`):
  exactly when there is no snapshot yet, a config is known, and an await fails, or an await after the config
  returns to a service disposed in the meantime, whose pending reasons are not cleared
  (`AccountRefresh.SupersededAdoption`).
* In the registry a request may be left waiting by mismatched Built-in and account revisions before anything was ever
  published (`RegistryRefresh.FirstMismatchLeavesWaiting`, `RegistryRefresh.Quiesces`).
* An array that starts with the string literal `]`, or an object whose first key is `}`, is not read back, because the
  parser compares token values and not kinds (`CelRoundTrip.ClosesEarly`, `CelRoundTrip.PlainArrayReadsBack`,
  `CelRoundTrip.ObjectClosesEarly`, `CelRoundTrip.PlainObjectReadsBack`, `CelRoundTrip.ParserImage`).
  The printer puts such a first element in parentheses, so that the round trip holds for every tree the parser can
  produce.
* An empty speed passes the selection check of a model that declares speeds (`ProviderRegistry.EmptySpeedIsAccepted`);
  every other selection is accepted exactly when it is declared (`ProviderRegistry.AcceptsWhatIsDeclared`). The schema
  of selections (`packages/shared/src/model-selection.ts`, line 11) refuses an empty speed wherever a selection is
  parsed, so this concerns only callers within the process that skip the schema.

One difference is intended: a first read that finds a loop in flight makes no request and so, unlike a request, can be
answered by a round that began before it (`AccountReads.SharedReadPredated`), though never by anything adopted before it
(`AccountReads.JoinPrecedesAdoption`).

## Model

| member | source | states |
|---|---|---|
| MergePatch.PathsOverlap | packages/model-option-map/src/merge-patch.ts:51-57 | answers yes exactly when one path is a prefix of the other |
| MergePatch.CollectWrittenPaths | packages/model-option-map/src/merge-patch.ts:35-49 | lists the written leaf paths of a patch below the prefix: all of them, no other path, each once |
| MergePatch.PrefixFree | packages/model-option-map/src/merge-patch.ts:35-49 | written paths of one patch are pairwise prefix-free, so a patch never conflicts with itself |
| MergePatch.MergeObject | packages/model-option-map/src/merge-patch.ts:63-78 | the in-place loop gives the same document for every order in which the members are visited |
| MergePatch.MergedIsRfc7396 | packages/model-option-map/src/merge-patch.ts:63-78 | that document is what the procedure of section 2 of RFC 7396 computes, written as a reference definition |
| MergePatch.MergeWritten | packages/model-option-map/src/merge-patch.ts:63-78 | every written path holds its patch value afterwards: absent for null, the kept object or an empty one for an empty-object leaf |
| MergePatch.MergeUntouched | packages/model-option-map/src/merge-patch.ts:63-78 | a path that overlaps no written path keeps its lookup |
| MergePatch.MergeSpine | packages/model-option-map/src/merge-patch.ts:70-73 | everything above a written path is an object afterwards |
| MergePatch.MergeIdempotent | packages/model-option-map/src/merge-patch.ts:63-78 | applying a patch twice equals applying it once |
| MergePatch.MergeCommutes | packages/model-option-map/src/merge-patch.ts:63-78 | patches without overlapping written paths commute on every document |
| MergePatch.ClaimPaths | packages/model-option-map/src/merge-patch.ts:21-29 | claims exactly the paths of one patch for it, or names an earlier owner of an overlapping path |
| MergePatch.ApplyOrderedJsonMergePatches | packages/model-option-map/src/merge-patch.ts:13-33 | accepts a list exactly when no two of its patches write overlapping paths; then returns the fold of the merges, else a genuine conflict |
| MergePatch.FoldWritten | packages/model-option-map/src/merge-patch.ts:13-33 | in an accepted list every written path ends up with its own patch's value |
| MergePatch.FoldUntouched | packages/model-option-map/src/merge-patch.ts:13-33 | a path overlapping no written path of the list keeps its lookup in the body |
| MergePatch.PermutationKeepsNonConflicting | packages/model-option-map/src/merge-patch.ts:13-33 | every permutation of an accepted list is accepted |
| MergePatch.OrderIrrelevant | packages/model-option-map/src/merge-patch.ts:13-33 | and returns the same document |
| CelTokenizer.ReadWhileIdentifier | packages/model-option-map/src/tokenizer.ts:137-141 | the cursor stops at the first character that is no identifier part |
| CelTokenizer.ReadString | packages/model-option-map/src/tokenizer.ts:83-124 | the escape loop reads exactly the specified string body, with each of the five failures where the specification has it |
| CelTokenizer.NextToken | packages/model-option-map/src/tokenizer.ts:25-70 | one pass takes the same branch as the specification for every character |
| CelTokenizer.Tokenize | packages/model-option-map/src/tokenizer.ts:22-73 | the whole loop returns the specified token list or the first error |
| CelTokenizer.EscapedReadsBack | packages/model-option-map/src/tokenizer.ts:83-124 | every string written with the escapes is read back as itself |
| CelTokenizer.NumberReadsBack | packages/model-option-map/src/tokenizer.ts:75-81 | every lexeme of the number grammar that a space or the end follows is read back as one number token |
| CelTokenizer.RenderReadsBack | packages/model-option-map/src/tokenizer.ts:22-142 | every canonical token list is recovered from its rendered text |
| CelTokenizer.TokenizerImage | packages/model-option-map/src/tokenizer.ts:22-142 | a token list comes out of some source text if and only if it is canonical |
| CelLexing.MaximalMunch | packages/model-option-map/src/tokenizer.ts:15-73 | the tokens of any source, however spaced, are its longest lexemes under a lexical grammar that does not mention the tokenizer; there are none exactly when it cannot be cut like that |
| CelLexing.ContentIsRead | packages/model-option-map/src/tokenizer.ts:83-124 | a literal ends at its first closing quote and denotes what its characters, its escapes (all eight, and the codes of characters) spell, in either kind of quotes |
| CelLexing.NumbersAreNumerals | packages/model-option-map/src/tokenizer.ts:75-81 | the number pattern matches exactly the numerals |
| CelLexing.NumeralDenotes | packages/model-option-map/src/parser.ts:147-157 | the value of a number literal is what its digits, its point and its exponent denote by their places |
| CelGrammar.ParsesTheGrammar | packages/model-option-map/src/parser.ts:61-240 | the parser accepts exactly the token lists that the grammar derives, to the last token, as the tree it derives |
| CelGrammar.SourcesAreSentences | packages/model-option-map/src/parser.ts:46-240 | a source is read as a tree if and only if its longest lexemes are a sentence of the grammar with this tree |
| CelGrammar.MembersAreRefused | packages/model-option-map/src/parser.ts:61-77 | what follows an expression after a point is refused as the access of a member |
| CelGrammar.CallsAreRefused | packages/model-option-map/src/parser.ts:158-162 | a name before an opening parenthesis is refused as a call |
| CelGrammar.Unambiguous | packages/model-option-map/src/parser.ts:79-214 | no token list has two trees |
| CelParser.ParseLevel | packages/model-option-map/src/parser.ts:79-145 | every level terminates on every token list that a tokenizer can return, and what it reads successfully ends before the end token |
| CelParser.Parser.Advance | packages/model-option-map/src/parser.ts:231-235 | returns the current token and moves on unless it is the end |
| CelParser.Parser.Consume | packages/model-option-map/src/parser.ts:216-220 | compares values, not kinds, and moves on exactly when they agree |
| CelParser.Parser.Expect | packages/model-option-map/src/parser.ts:222-229 | the token with the given value, or the error |
| CelParser.Parser.ParseAll | packages/model-option-map/src/parser.ts:61-77 | the imperative parser returns what the specification parses, with the same errors for trailing tokens |
| CelParser.Parser.ParseConditional | packages/model-option-map/src/parser.ts:79-86 | the conditional level agrees with the specification in result and final index |
| CelParser.Parser.ParseBinary | packages/model-option-map/src/parser.ts:88-128 | the loop of each of the six binary levels agrees with the specification |
| CelParser.Parser.ParseUnary | packages/model-option-map/src/parser.ts:130-145 | the unary level agrees with the specification |
| CelParser.Parser.ParsePrimaryToken | packages/model-option-map/src/parser.ts:147-180 | the primary level agrees with the specification |
| CelParser.Parser.ParseArray | packages/model-option-map/src/parser.ts:182-190 | the element loop reads what the specification reads |
| CelParser.Parser.ParseKeyValue | packages/model-option-map/src/parser.ts:197-209 | one entry: key kind, duplicate key, colon, value |
| CelParser.Parser.ParseObject | packages/model-option-map/src/parser.ts:192-214 | the entry loop reads what the specification reads |
| CelRoundTrip.ReadsChain | packages/model-option-map/src/parser.ts:112-128 | binary chains are read left-associatively: after the printed left operand the loop of the level continues with it |
| CelRoundTrip.ReadsBack | packages/model-option-map/src/parser.ts:79-214 | a tree printed with the parentheses its context needs is read back at that place, for every level |
| CelRoundTrip.LevelProducible | packages/model-option-map/src/parser.ts:79-214 | whatever a level parses is a producible tree |
| CelRoundTrip.RoundTrip | packages/model-option-map/src/parser.ts:46-240 | every tree that the parser can produce is recovered from its printed source text: precedence, associativity, nested conditionals, escapes |
| CelRoundTrip.ParserImage | packages/model-option-map/src/parser.ts:46-240 | a tree is parsed from some source if and only if it is producible; the one excluded shape is an object whose first key is a closing brace |
| CelRoundTrip.PlainArrayReadsBack | packages/model-option-map/src/parser.ts:182-190 | an array printed without protecting its first element is read back if and only if it does not start with the string literal `]` |
| CelRoundTrip.ClosesEarly | packages/model-option-map/src/parser.ts:216-220 | a leading string `]` closes the array at once, because only values are compared |
| CelRoundTrip.PlainObjectReadsBack | packages/model-option-map/src/parser.ts:192-214 | an object with distinct keys printed without protecting its first key is read back if and only if that key is not a closing brace |
| CelRoundTrip.ObjectClosesEarly | packages/model-option-map/src/parser.ts:216-220 | a first key `}` closes the object at once, on every level |
| CelEvaluator.FillObject | packages/model-option-map/src/evaluator.ts:25-36 | the loop that fills the result object gives the specified object, or the first error of its entries in order |
| CelEvaluator.JsonEqualsIsEquality | packages/model-option-map/src/evaluator.ts:180-199 | the recursive comparison holds exactly for equal JSON values |
| CelEvaluator.ComparisonTrichotomy | packages/model-option-map/src/evaluator.ts:122-145 | on comparable operands exactly one of less, equal, greater holds, swapping operands swaps it, and the four operators are consistent with it |
| CelEvaluator.StringLessTransitive | packages/model-option-map/src/evaluator.ts:136-140 | the string order is transitive |
| CelEvaluator.RemainderBounds | packages/model-option-map/src/evaluator.ts:92-93 | the remainder has the sign of the dividend and is smaller than the divisor in magnitude |
| CelEvaluator.EvaluateSafe | packages/model-option-map/src/evaluator.ts:17-166 | on a JSON-safe input every number inside a result is JSON-safe |
| CelSemantics.EvaluatesToMeaning | packages/model-option-map/src/evaluator.ts:17-166 | the result of every expression on every input, value or error, is the one meaning that a rule for each construct and operator gives it; no rule mentions the evaluator |
| CelSemantics.ApplyMeans | packages/model-option-map/src/evaluator.ts:58-145 | each operator gives what its rule says: equality, order, concatenation, the five arithmetic operators, and their errors |
| CelSemantics.RemainderUnique | packages/model-option-map/src/evaluator.ts:92-93 | the rule for the remainder determines it |
| CelSemantics.ResultsDecide | packages/model-option-map/src/compiler.ts:80-88 | the static object check asks for object literals at the ends of all branches, and a value is always that of one of these ends |
| OptionMeaning.BlanksDoNotMatter | packages/model-option-map/src/compiler.ts:59-65 | blanks around a source do not matter, and a blank source is refused |
| OptionMeaning.CompilesSentences | packages/model-option-map/src/compiler.ts:17-33 | a trimmed source compiles to a tree if and only if it is a sentence of the grammar with this tree |
| CelEvaluator.ObjectResultEvaluates | packages/model-option-map/src/compiler.ts:80-88 | an expression that passes the static object check evaluates to an object whenever it evaluates |
| ModelOptionMaps.CacheKeyInjective | packages/model-option-map/src/compiler.ts:76-78 | different sources or variables never share a cache key |
| ModelOptionMaps.Compiler.ParseExpression | packages/model-option-map/src/compiler.ts:67-74 | after any call history the expression cache returns what a fresh parse returns |
| ModelOptionMaps.Compiler.CompileRestrictedCel | packages/model-option-map/src/compiler.ts:17-33 | the same for the program cache |
| ModelOptionMaps.Compiler.CompileModelOptionMap | packages/model-option-map/src/compiler.ts:35-57 | the same for the option-map cache, including refused sources |
| ModelOptionMaps.OptionMapIsSafe | packages/model-option-map/src/compiler.ts:45-53 | for any accepted source and any input the dynamic object check never fires, and a result is a JSON-safe object |
| ModelOptionMaps.CompileRoundTrip | packages/model-option-map/src/compiler.ts:17-88 | every producible tree has a source that compiles to exactly it; it is accepted as an option map if and only if the static check holds |
| ModelOptionMaps.ApplyMaps | packages/model-option-map/src/option-maps.ts:26-42 | missing values and evaluation errors in the fixed order, then acceptance if and only if the patches do not conflict, and the fold of the patches |
| ModelOptionMaps.RequestIsSafe | packages/model-option-map/src/option-maps.ts:22-43 | accepted option maps turn a JSON-safe body into a JSON-safe body for all values |
| OptionMeaning.PatchesMean | packages/model-option-map/src/option-maps.ts:22-50 | the patches of a request, exactly: each value is the input of its own program and of no other, and each patch is the object that this program means |
| PipCoordinator.PurgeExpiredPending | packages/lcode-cua/pip-session-coordinator.js:293-297 | the deletion loop drops exactly the expired captures |
| PipCoordinator.RetainedCaptureBytes | packages/lcode-cua/pip-session-coordinator.js:236-245 | the two loops add up the decoded bytes retained per session id |
| PipCoordinator.RememberId | packages/lcode-cua/pip-session-coordinator.js:247-255 | adds an unknown id and drops the oldest ones over the limit, in set and order list alike |
| PipCoordinator.EvictIdle | packages/lcode-cua/pip-session-coordinator.js:265-275 | the search loop evicts the idle session that was touched longest ago, or reports that there is none |
| PipCoordinator.FindSession | packages/lcode-cua/pip-session-coordinator.js:277-291 | returns the known session, or makes one, evicting if full |
| PipCoordinator.StorePending | packages/lcode-cua/pip-session-coordinator.js:299-310 | stores a capture and drops the oldest ones over the limit |
| PipCoordinator.MutateByLifecycle | packages/lcode-cua/pip-session-coordinator.js:389-436 | lifecycle events take the specified branch: capacity, duplicate, stale, start, close, mismatch, end |
| PipCoordinator.MutateByFocus | packages/lcode-cua/pip-session-coordinator.js:486-499 | focus changes: duplicate, stale revision, or the new focus with its remembered id |
| PipCoordinator.RestoreTurns | packages/lcode-cua/pip-session-coordinator.js:447-465 | the snapshot loop builds each session from its turn and hands over matching pending captures |
| PipCoordinator.MutateBySnapshot | packages/lcode-cua/pip-session-coordinator.js:446-474 | a snapshot replaces sessions and focus and drops the pending captures of sessions it does not name |
| PipCoordinator.MutateByCapture | packages/lcode-cua/pip-session-coordinator.js:508-539 | a capture is stored, bound or refused, within the byte budget |
| PipCoordinator.PipSessionCoordinator.Reconcile | packages/lcode-cua/pip-session-coordinator.js:352-374 | shows or hides only what differs from what is visible; fails exactly when a needed presenter call fails |
| PipCoordinator.PipSessionCoordinator.Commit | packages/lcode-cua/pip-session-coordinator.js:376-387 | copy, purge, mutate, reconcile, commit is one transactional step and keeps every invariant; a disposed coordinator refuses |
| PipCoordinator.PipSessionCoordinator.ApplySnapshotInput | packages/lcode-cua/pip-session-coordinator.js:439-475 | invalid snapshots are refused without effect, valid ones are one step |
| PipCoordinator.PipSessionCoordinator.ApplyEventInput | packages/lcode-cua/pip-session-coordinator.js:477-501 | invalid events are refused without effect, valid ones are one step |
| PipCoordinator.PipSessionCoordinator.BindCaptureInput | packages/lcode-cua/pip-session-coordinator.js:503-540 | invalid captures are refused without effect, valid ones are one step |
| PipCoordinator.PipSessionCoordinator.Dispose | packages/lcode-cua/pip-session-coordinator.js:557-572 | final: what is hidden and forgotten for each way in which the two presenter calls can fail |
| PipInvariants.InvStep | packages/lcode-cua/pip-session-coordinator.js:376-436 | every operation, accepted, refused or failing, keeps bounds, ownership, distinct stamps and the presentation |
| PipInvariants.VisibleIsFocusedCapture | packages/lcode-cua/pip-session-coordinator.js:257-263 | in every reachable state the picture shown is exactly the capture of the focused session's open turn, or nothing |
| PipInvariants.StoresAreBounded | packages/lcode-cua/pip-session-coordinator.js:231-310 | in every reachable state: at most 256 sessions, 16 pending captures, the byte budget, event-id sets equal to their bounded duplicate-free lists, captures owned by their session and open turn |
| PipInvariants.EvictionIsIdle | packages/lcode-cua/pip-session-coordinator.js:265-275 | only an idle session is evicted, the one touched longest ago, and one is evicted whenever there is any |
| PipInvariants.AddBoundedKeeps | packages/lcode-cua/pip-session-coordinator.js:247-255 | remembering an id keeps set and list equal, bounded and duplicate-free, and the id is known afterwards |
| PipInvariants.FailureChangesNothing | packages/lcode-cua/pip-session-coordinator.js:376-387 | a refused or failing operation leaves the state as it was; only a turn mismatch of an event is committed |
| PipIsolation.BusySessionsStay | packages/lcode-cua/pip-session-coordinator.js:265-291 | no operation other than a snapshot drops a session with an open turn |
| PipIsolation.CaptureStepInvisible | packages/lcode-cua/pip-session-coordinator.js:503-540 | captures change no open turn, sequence number, event id, focus or eviction order |
| PipIsolation.SnapshotForgets | packages/lcode-cua/pip-session-coordinator.js:446-474 | a snapshot makes any two states agree on all of these |
| PipIsolation.ClientStep | packages/lcode-cua/pip-session-coordinator.js:389-501 | an operation answers the same and keeps the agreement on states that agree |
| PipIsolation.LifecycleIgnoresCaptures | packages/lcode-cua/pip-session-coordinator.js:343-387 | two whole runs with the same client operations and arbitrary captures in between agree |
| PipReplay.SnapshotEqualsReplay | packages/lcode-cua/pip-session-coordinator.js:439-475 | on a coordinator without sessions and focus a snapshot equals replaying its turn-started events and its focus event, up to clock stamps and the pending captures of unnamed sessions |
| PipLifecycle.LifecycleAnswer | packages/lcode-cua/pip-session-coordinator.js:389-434 | exactly what every valid lifecycle event is answered, from its fields and those of its session |
| PipLifecycle.LifecycleMeaning | packages/lcode-cua/pip-session-coordinator.js:404-436 | what each kind of event does when it is applied: a start opens its turn with the capture that waited for it, an end or a close leaves no turn and no capture, tool activity leaves both; the session remembers the event, other sessions and captures stay |
| PipLifecycle.FocusMeaning | packages/lcode-cua/pip-session-coordinator.js:486-499 | a focus change is applied exactly when its id is new and its revision greater, and then is the focus |
| PipLifecycle.CaptureMeaning | packages/lcode-cua/pip-session-coordinator.js:508-539 | a capture of the open turn is bound to it, one without an open turn waits until its time is over, one of another turn is refused; of sixteen that wait the oldest gives way |
| PipLifecycle.BindingCapacity | packages/lcode-cua/pip-session-coordinator.js:525-531 | a capture of the open turn is refused for its size exactly when, in place of the one it replaces, it exceeds the budget |
| PipLifecycle.StoringCapacity | packages/lcode-cua/pip-session-coordinator.js:510-518 | likewise one that has to wait |
| PipLifecycle.EarlyCapture | packages/lcode-cua/pip-session-coordinator.js:408-416 | a capture that arrives before its turn is shown when the turn starts, exactly if its time is not over |
| PipLifecycle.ClientsCanFollow | packages/lcode-cua/pip-session-coordinator.js:389-501 | in every run the open turns and the focus are those of the snapshots, starts, ends, closes and focus changes that were applied, so nothing is on the screen after its turn has ended |
| PipServer.InvNext | packages/lcode-cua/pip-session-server.js:78-252 | every step of any connection keeps the queue's epoch order and the tie between active writer and newest epoch |
| PipServer.EpochsNeverDecrease | packages/lcode-cua/pip-session-server.js:140-178 | queued operations are in non-decreasing epoch order, and one epoch has one writer |
| PipServer.EpochOpening | packages/lcode-cua/pip-session-server.js:140-154 | every epoch is opened by exactly one snapshot, which precedes all its events |
| PipServer.WriterTakeover | packages/lcode-cua/pip-session-server.js:140-178 | in every run: that order, and no event is queued unless its own writer's snapshot was applied before |
| PipServer.NewestWriterDecides | packages/lcode-cua/pip-session-server.js:140-178 | servers with arbitrary pasts whose newest writers sent the same snapshot and events end with the same sessions, turns, ids and focus, whatever older writers and captures did |
| PipServer.PipSessionServer.HandleHandshake | packages/lcode-cua/pip-session-server.js:104-145 | an accepted handshake takes over with the next epoch and queues its snapshot, any other closes the connection |
| PipServer.PipSessionServer.HandleEvent | packages/lcode-cua/pip-session-server.js:164-179 | only the active writer of the newest epoch queues events |
| PipServer.PipSessionServer.OnLine | packages/lcode-cua/pip-session-server.js:196-223 | dispatch of a decoded line by the phase of its connection |
| PipServer.PipSessionServer.OnSettled | packages/lcode-cua/pip-session-server.js:144-162 | what happens after the awaited coordinator operation, with the takeover checks repeated |
| PipServer.PipSessionServer.OnSocketClosed | packages/lcode-cua/pip-session-server.js:247-251 | a closed socket stops being the writer |
| PipServer.PipSessionServer.Shutdown | packages/lcode-cua/pip-session-server.js:264-277 | a closed server queues nothing any more |
| PipFraming.Receiver.OnData | packages/lcode-cua/pip-session-server.js:225-245 | one data event consumes the buffer up to its last newline or the first over-long frame |
| PipFraming.ExtractedLines | packages/lcode-cua/pip-session-server.js:228-244 | the loop yields the non-empty lines before the first over-long one, and fails exactly when there is one or the remainder is over-long |
| PipDelivery.StepDelivers | packages/lcode-cua/pip-session-server.js:104-179 | exactly an accepted handshake and a valid event line of the ready writer that took over last reach the coordinator, each with one operation that its connection then waits for |
| PipDelivery.EpochIsTraffic | packages/lcode-cua/pip-session-server.js:104-179 | in every run, for every epoch: the coordinator is handed the snapshot of its handshake and then exactly the events that its writer sent while it was ready, in order |
| PipDelivery.WriterIsServed | packages/lcode-cua/pip-session-server.js:140-162 | from every reachable state of an open server, a connection that shakes hands and is left alone becomes the ready writer, and all its events are queued |
| PipDelivery.ClosesExactly | packages/lcode-cua/pip-session-server.js:90-101 | exactly which steps open and close a connection, and when the writer role is given up |
| PipDelivery.ShutIsFinal | packages/lcode-cua/pip-session-server.js:196-197 | in every run nothing of a closed connection is queued any more, and nothing at all by a closed server |
| PipFraming.ChunkingIsInvisible | packages/lcode-cua/pip-session-node.js:168-206 | for every way of cutting a stream into chunks, frames, error and buffer are those of splitting the whole stream |
| PipFraming.LinesPartition | packages/lcode-cua/pip-session-node.js:171-194 | lines and remainder are the stream again, and none contains a newline |
| RefreshWaiters.SettleWaiters | packages/provider/src/registry-service.ts:268-284 | the settling loop answers exactly the requests up to the generation and keeps the others in order |
| RefreshWaiters.SettledOnce | packages/provider/src/registry-service.ts:157-166 | no promise settles twice, and none is settled while it still waits |
| RefreshWaiters.NoneLost | packages/provider/src/registry-service.ts:157-166 | every request made is waiting or settled |
| RegistryRefresh.InvNext | packages/provider/src/registry-service.ts:157-284 | every stretch of code between two awaits keeps the invariant, for any calls from listeners |
| RegistryRefresh.Freshness | packages/provider/src/registry-service.ts:187-266 | in every run a promise is settled only by a round that began after its request; a snapshot from it reflects what that round read, except the retained one on a revision mismatch; no superseded round publishes; everything published pairs an account with the Built-in revision it is based on |
| RegistryRefresh.NoLostRequest | packages/provider/src/registry-service.ts:157-185 | in every run unfinished work means a loop in flight; nobody waits in an idle service that has ever published; each request is settled at most once and never lost |
| RegistryRefresh.Quiesces | packages/provider/src/registry-service.ts:181-266 | left alone the service is idle after at most four steps and has answered every unfinished request; exactly when somebody is left waiting |
| RegistryRefresh.FirstMismatchLeavesWaiting | packages/provider/src/registry-service.ts:215-222 | a run that ends idle with the first request left waiting, for every pair of snapshots that do not match |
| RegistryRefresh.ReadAnswers | packages/provider/src/registry-service.ts:210-258 | one unsuperseded read of matching snapshots answers everybody, of mismatched ones everybody once a snapshot exists |
| RegistryRefresh.EventsNameTheirRequests | packages/provider/src/registry-service.ts:190-192 | the reasons of a round name every request it is the first to answer |
| RegistryRefresh.HistoryOnlyGrows | packages/provider/src/registry-service.ts:140-148 | the view revision never goes back, and after disposal nothing is settled, published or replaced |
| RegistryRefresh.ProviderRegistryService.ContinueLoop | packages/provider/src/registry-service.ts:187-192 | the loop condition and the start of a round |
| RegistryRefresh.ProviderRegistryService.RequestRefresh | packages/provider/src/registry-service.ts:157-166 | the next generation, its reason and waiter, and a loop if none is in flight |
| RegistryRefresh.ProviderRegistryService.ReceiveSources | packages/provider/src/registry-service.ts:209-264 | the six outcomes of a round that was read, in the order of the original |
| RegistryRefresh.ProviderRegistryService.ServeKeptSnapshot | packages/provider/src/registry-service.ts:215-222 | mismatched revisions: the round ends and only an earlier snapshot is handed out |
| RegistryRefresh.ProviderRegistryService.ServeSameSources | packages/provider/src/registry-service.ts:224-233 | unchanged revisions: a new snapshot object, and an event, only for new save generations |
| RegistryRefresh.ProviderRegistryService.ServeResolution | packages/provider/src/registry-service.ts:235-258 | a resolution: the next view revision, its requests resolved, then the event |
| RegistryRefresh.ProviderRegistryService.RejectAfterListeners | packages/provider/src/registry-service.ts:259-264 | a resolver that throws: listeners first, then the requests of the round are rejected |
| RegistryRefresh.ProviderRegistryService.ReceiveFailure | packages/provider/src/registry-service.ts:201-207 | a failed round is repeated if superseded, else reported and its requests rejected |
| RegistryRefresh.ProviderRegistryService.FinishRefresh | packages/provider/src/registry-service.ts:168-185 | the finish handlers, including the restart for requests that arrived meanwhile |
| RegistryRefresh.ProviderRegistryService.DisposeService | packages/provider/src/registry-service.ts:140-148 | every waiter is rejected once |
| RegistryRefresh.ProviderRegistryService.Handle | packages/provider/src/registry-service.ts:77-96 | start, refresh, source changes and dispose, at any moment |
| RegistryRequests.CallAsks | packages/provider/src/registry-service.ts:77-166 | exactly which calls make a request: one waiter with the next number, the moment and the reason, and a loop that has taken up the reason or will |
| RegistryRequests.RequestsAreCalls | packages/provider/src/registry-service.ts:77-166 | in every run the requests are exactly those that calls asked for, listeners' calls included: as many, in that order, each waiting or settled under its own reason |
| RegistryRequests.ChangeIsServed | packages/provider/src/registry-service.ts:150-258 | after such a call, made in any reachable state, a service that is left alone with matching sources answers it by a read that began after it and ends with a snapshot that reflects the sources |
| RegistryRequests.FailureRejects | packages/provider/src/registry-service.ts:201-207 | a round that fails and that nobody superseded rejects everybody who waited and keeps the snapshot |
| RegistryRequests.SubscribersAreCurrent | packages/provider/src/registry-service.ts:224-258 | in every run the last change event carried the current snapshot |
| AccountRequests.CallAsks | packages/provider/src/account-provider-service.ts:64-124 | exactly which calls make a request: one waiter with the next number, the moment and the reason, and a round begun for it or still to come |
| AccountRequests.RequestsAreCalls | packages/provider/src/account-provider-service.ts:64-124 | in every run the requests are exactly those that calls asked for, in that order, each waiting or settled under its own reason |
| AccountRequests.ChangeIsServed | packages/provider/src/account-provider-service.ts:112-217 | after such a call, made in any reachable state, a service that is left alone answers it by a round that began after it and ends with exactly the snapshot of what its config and its resolver return |
| AccountRequests.FailsClosed | packages/provider/src/account-provider-service.ts:199-209 | in every run, what comes of a failed round lists exactly the account providers of the config it had read and entitles none of them |
| AccountRequests.NobodyIsEntitledUnchecked | packages/provider/src/account-provider-service.ts:171-209 | in every run no snapshot, adopted or handed out, entitles a provider that a checked round did not |
| AccountRefresh.InvNext | packages/provider/src/account-provider-service.ts:112-235 | every stretch of code between two awaits keeps the invariant |
| AccountRefresh.Freshness | packages/provider/src/account-provider-service.ts:148-235 | in every run a promise is settled only by a round that began after its request, with what that round resolved on a Built-in revision that still stood, or the fail-closed snapshot of a failed round |
| AccountRefresh.AdoptionIsFresh | packages/provider/src/account-provider-service.ts:170-209 | apart from a fail-closed first snapshot, only rounds that were not superseded replace the snapshot; only later ones are announced |
| AccountRefresh.NoLostRequest | packages/provider/src/account-provider-service.ts:112-146 | in every run a service with nothing in flight owes nothing; each request is settled at most once and never lost; the closing exception of the loop is unreachable |
| AccountRefresh.SupersededAdoption | packages/provider/src/account-provider-service.ts:199-209 | a superseded round replaces the snapshot if and only if there is none yet, a config is known, and an await fails or returns to a disposed service |
| AccountRefresh.SupersededRoundFailsClosed | packages/provider/src/account-provider-service.ts:199-209 | a run in which that happens |
| AccountRefresh.HistoryOnlyGrows | packages/provider/src/account-provider-service.ts:91-100 | a failure keeps the last good snapshot, and after disposal nothing is settled |
| AccountRefresh.Quiesces | packages/provider/src/account-provider-service.ts:136-217 | left alone with a working resolver the service is idle after at most seven steps and everybody has a snapshot based on the current Built-in revision |
| AccountRefresh.AccountProviderService.RequestRefresh | packages/provider/src/account-provider-service.ts:112-124 | the next generation, its reason and waiter, and a loop if none is in flight |
| AccountRefresh.AccountProviderService.ReceiveRecheck | packages/provider/src/account-provider-service.ts:171-198 | discard, keep or adopt after the second read |
| AccountRefresh.AccountProviderService.CatchError | packages/provider/src/account-provider-service.ts:199-213 | report, then fail closed or reject |
| AccountRefresh.AccountProviderService.FinishRefresh | packages/provider/src/account-provider-service.ts:136-146 | the restart for reasons that arrived meanwhile |
| AccountRefresh.AccountProviderService.Handle | packages/provider/src/account-provider-service.ts:64-100 | read, refresh, config changes and dispose, at any moment |
| AccountReads.ReadsInvNext | packages/provider/src/account-provider-service.ts:64-71 | every step keeps account of the first reads that share a loop in flight, those of error listeners included |
| AccountReads.SharedReadsSettle | packages/provider/src/account-provider-service.ts:126-134 | in every run such a read settles once, when the loop does: with the newest snapshot, or rejected by a round that failed |
| AccountReads.JoinPrecedesAdoption | packages/provider/src/account-provider-service.ts:67-69 | a read shares a loop only while nothing has been adopted, so what resolves it was adopted after it |
| AccountReads.SharedReadPredated | packages/provider/src/account-provider-service.ts:68-69 | a run in which the round that resolves such a read began before it |
| AccountRequests.SharedReadsAreCalls | packages/provider/src/account-provider-service.ts:64-71 | in every run the reads that share a loop are exactly the first reads that find one, listeners' reads included |
| RemoteLease.InvNext | packages/provider-node/src/lcode-builtin-remote-synchronizer.ts:86-101 | a step of any process breaks exclusivity if and only if it grants an endpoint whose live lease the file no longer shows |
| RemoteLease.ExclusiveRun | packages/provider-node/src/lcode-builtin-remote-synchronizer.ts:81-168 | a run is exclusive per endpoint throughout if and only if it has no such grant |
| RemoteLease.ExclusiveWithoutDisplacement | packages/provider-node/src/lcode-builtin-remote-synchronizer.ts:86-101 | it has none as long as no grant overwrites the unexpired lease of another endpoint, for any processes, forced or not |
| RemoteLease.OneEndpointIsExclusive | packages/provider-node/src/lcode-builtin-remote-synchronizer.ts:81-168 | with one endpoint key at most one unfinished refresh ever holds an unexpired lease |
| RemoteLease.DisplacementBreaksExclusivity | packages/provider-node/src/lcode-builtin-remote-synchronizer.ts:89-99 | with two endpoint keys a run of three processes ends with two live leases on one endpoint |
| RemoteLease.FencedOffForEver | packages/provider-node/src/lcode-builtin-remote-synchronizer.ts:146-148 | a lease that was taken over never returns to the file, and its holder finishes without touching the file |
| RemoteLease.TakeoverFencesOff | packages/provider-node/src/lcode-builtin-remote-synchronizer.ts:92-99 | every grant fences off the lease it replaces |
| RemoteLease.BackoffGrows | packages/provider-node/src/lcode-builtin-remote-synchronizer.ts:156-159 | the failure delay starts at the base, never exceeds the cap and never shrinks |
| RemoteLease.BackoffDoubles | packages/provider-node/src/lcode-builtin-remote-synchronizer.ts:156-159 | one more failure doubles the delay up to the cap |
| RemoteLease.DueAfterFinish | packages/provider-node/src/lcode-builtin-remote-synchronizer.ts:90-91 | after a holder finished, exactly forced and due refreshes are granted |
| RemoteLease.DelayFollowsStreak | packages/provider-node/src/lcode-builtin-remote-synchronizer.ts:149-166 | the delay after a failure is that of the failures since the last success |
| RemoteLease.RemoteSynchronizer.AcquireLease | packages/provider-node/src/lcode-builtin-remote-synchronizer.ts:86-101 | the body of the first lock: verdict, file and next phase |
| RemoteLease.RemoteSynchronizer.ConfirmEndpoint | packages/provider-node/src/lcode-builtin-remote-synchronizer.ts:114-121 | the endpoint is resolved again: cancelled, failed, changed, missing or applied |
| RemoteLease.RemoteSynchronizer.FinishLease | packages/provider-node/src/lcode-builtin-remote-synchronizer.ts:141-168 | the body of the second lock: untouched file or the released lease with its delay |
| RefreshCycle.GrantWrites | packages/provider-node/src/lcode-builtin-remote-synchronizer.ts:83-101 | what a granted refresh writes: its lease, with the due time and the failures of its endpoint and of no other |
| RefreshCycle.FetchesExactly | packages/provider-node/src/lcode-builtin-remote-synchronizer.ts:86-108 | a download begins exactly when a refresh may start, gets its lease and is still wanted |
| RefreshCycle.AppliesExactly | packages/provider-node/src/lcode-builtin-remote-synchronizer.ts:114-121 | a release is applied exactly when there is one and the endpoint is confirmed to be that of the lease |
| RefreshCycle.EndsExactly | packages/provider-node/src/lcode-builtin-remote-synchronizer.ts:105-132 | exactly what ends a refresh as a success, a failure or cancelled |
| RefreshCycle.AppliedWasConfirmed | packages/provider-node/src/lcode-builtin-remote-synchronizer.ts:103-121 | in every run a process applies a release only after it was granted the lease, downloaded, and was told the same endpoint again, in this order |
| RefreshCycle.ExpiredIsFree | packages/provider-node/src/lcode-builtin-remote-synchronizer.ts:88-91 | once an unfinished lease has run out it keeps nobody from refreshing |
| RefreshCycle.DisposalIsFinal | packages/provider-node/src/lcode-builtin-remote-synchronizer.ts:67-70 | in every run a process that was disposed begins no download and no apply |
| ActiveRelease.SelectReleaseCandidate | packages/provider-node/src/lcode-builtin-provider-config-source.ts:180-206 | filter and reduce give the bundled release on a tie, else the newer valid one, else nothing |
| ActiveRelease.RevisionNeverDecreases | packages/provider-node/src/lcode-builtin-provider-config-source.ts:100-113 | over any interleaving of locked reads and applies, whichever writes fail, the active revision never decreases |
| ActiveRelease.ActiveIsJoin | packages/provider-node/src/lcode-builtin-provider-config-source.ts:64-113 | with successful writes the file ends with a release of the highest revision among the initial, bundled and applied ones |
| ActiveRelease.JoinFromBaseline | packages/provider-node/src/lcode-builtin-provider-config-source.ts:64-113 | an apply before any usable release exists is refused and leaves the file alone; from then on the file ends as that join, for every run |
| ActiveRelease.ReadsSettle | packages/provider-node/src/lcode-builtin-provider-config-source.ts:100-113 | however often a process reads again what its own write announced, nothing changes |
| ActiveRelease.OrderIrrelevant | packages/provider-node/src/lcode-builtin-provider-config-source.ts:64-113 | without two contents for one revision the order of steps across processes does not matter |
| ActiveRelease.ConflictsDependOnOrder | packages/provider-node/src/lcode-builtin-provider-config-source.ts:185-193 | with them it does |
| ActiveRelease.ConflictGoesToBundled | packages/provider-node/src/lcode-builtin-provider-config-source.ts:185-193 | an equal-revision conflict resolves to the bundled content |
| ActiveRelease.ApplyOutcome | packages/provider-node/src/lcode-builtin-provider-config-source.ts:71-80 | updated, stale, unchanged or conflict, exactly by comparing with what is installed |
| ActiveRelease.ReadGivesNewest | packages/provider-node/src/lcode-builtin-provider-config-source.ts:100-113 | a reader gets neither less than its bundled release nor less than the file held |
| ActiveRelease.NothingInvented | packages/provider-node/src/lcode-builtin-provider-config-source.ts:100-121 | the file never holds a release that nobody offered |
| ActiveRelease.SharedFileIsMissingBundled | packages/provider-node/src/lcode-builtin-provider-config-source.ts:103-108 | a process whose active file is its bundled file behaves like one without a bundled release |
| ActiveRelease.BuiltinConfigSource.Read | packages/provider-node/src/lcode-builtin-provider-config-source.ts:49-62 | the locked read, or the bundled file alone when it fails |
| ActiveRelease.BuiltinConfigSource.ApplyRemoteRelease | packages/provider-node/src/lcode-builtin-provider-config-source.ts:64-84 | file, result, observed release and event of an apply |
| ActiveRelease.BuiltinConfigSource.WatchRefresh | packages/provider-node/src/lcode-builtin-provider-config-source.ts:133-148 | an event only for a release that was not yet observed, or for an error |
| SnapshotCache.Sandwich | packages/provider-node/src/providerConfigSnapshotCache.ts:43-50 | between equal samples a load has seen the files as sampled if and only if it saw no file that both samples missed |
| SnapshotCache.InvNext | packages/provider-node/src/providerConfigSnapshotCache.ts:14-52 | every interleaving of reads, writes, deletions and clears keeps the invariant |
| SnapshotCache.AgreesExactly | packages/provider-node/src/providerConfigSnapshotCache.ts:44-50 | in every run an entry agrees with loading at its signature if and only if its load saw no file that both samples missed |
| SnapshotCache.CacheAgreesWithLoading | packages/provider-node/src/providerConfigSnapshotCache.ts:14-52 | as long as no file is deleted, every hit returns what loading at its signature returns, and every read what a load at some moment of the read returns |
| SnapshotCache.DeletionFoolsTheCache | packages/provider-node/src/providerConfigSnapshotCache.ts:57-62 | a run with a deletion after which the entry for a missing file holds its content, because every absence has the same signature |
| SnapshotCache.CanonicalStaysCanonical | packages/provider-node/src/providerConfigSnapshotCache.ts:18-20 | a canonical read never receives what a non-canonical load returned |
| SnapshotCache.ClearIsFinal | packages/provider-node/src/providerConfigSnapshotCache.ts:32-36 | no read that began before clear fills the cache after it |
| SnapshotCache.TakeSignature | packages/provider-node/src/providerConfigSnapshotCache.ts:54-67 | one stamp per path, in order |
| SnapshotCache.ProviderConfigSnapshotCache.EnterRead | packages/provider-node/src/providerConfigSnapshotCache.ts:18-23 | join, wait or start a read |
| SnapshotCache.ProviderConfigSnapshotCache.FinishResample | packages/provider-node/src/providerConfigSnapshotCache.ts:47-51 | fills the cache only for equal signatures and an unchanged generation |
| SnapshotCache.FillsExactly | packages/provider-node/src/providerConfigSnapshotCache.ts:43-50 | exactly what fills the cache and what empties it |
| SnapshotCache.ServesExactly | packages/provider-node/src/providerConfigSnapshotCache.ts:39-42 | exactly when a sample ends a read with the cached snapshot |
| SnapshotCache.JoinsExactly | packages/provider-node/src/providerConfigSnapshotCache.ts:14-30 | exactly which read a caller waits for |
| SnapshotCache.DeliversExactly | packages/provider-node/src/providerConfigSnapshotCache.ts:18-30 | exactly what a caller gets when that read ends |
| SnapshotCache.ClearsExactly | packages/provider-node/src/providerConfigSnapshotCache.ts:32-36 | a clear forgets the entry and lets the next caller read for itself |
| SnapshotCache.UndisturbedReadIsCached | packages/provider-node/src/providerConfigSnapshotCache.ts:38-52 | a read that nobody disturbs is cached and received |
| SnapshotCache.NextReadIsServed | packages/provider-node/src/providerConfigSnapshotCache.ts:39-42 | and the next read of the same files is served without a load |
| OwnedOrder.UniqueInOrder | packages/provider/src/owned-order.ts:25-34 | the loop keeps first occurrences |
| OwnedOrder.ResolveOwnedOrder | packages/provider/src/owned-order.ts:7-23 | the set-based computation gives the specified three groups |
| OwnedOrder.ResolveMembers | packages/provider/src/owned-order.ts:7-23 | the result lists exactly the inherited and the personal members, once each |
| OwnedOrder.ResolveOrder | packages/provider/src/owned-order.ts:18-22 | its order, exactly: unordered inherited, ordered, unordered personal, each as in its list |
| OwnedOrder.ResolveIsFixed | packages/provider/src/owned-order.ts:7-23 | a resolved order resolves to itself |
| ModelMembership.VisibleMembers | packages/provider/src/config-service.ts:755-767 | at any time the visible models are duplicate-free and are the inherited and personal ones minus the excluded |
| ModelMembership.CommandMembers | packages/provider/src/config-service.ts:306-628 | what each successful command does to the set of visible models |
| ModelMembership.CommandAccepted | packages/provider/src/config-service.ts:306-628 | exactly which commands are accepted, by what is shown and what is free |
| ModelMembership.FaultIsTrue | packages/provider/src/config-service.ts:306-628 | a refusal tells the truth: what it says is missing, inherited, taken or deleted is |
| ModelMembership.StoredOrderIsFixed | packages/provider/src/config-service.ts:306-628 | every order a command stores is a fixed point of normalizing and is what is then shown |
| ModelMembership.DeletedStaysDeleted | packages/provider/src/config-service.ts:583-628 | an excluded model stays hidden through every run of commands without an explicit add, whatever the inherited lists become |
| ModelMembership.DeletionIsFinal | packages/provider/src/config-service.ts:583-628 | so after a successful deletion the model is not shown again until it is added explicitly |
| ModelMembership.ReorderTakesEffect | packages/provider/src/config-service.ts:306-332 | reordered models appear in the requested order |
| ModelMembership.FullReorder | packages/provider/src/config-service.ts:306-332 | a full list is shown as it is |
| ModelMembership.AddKeepsOrder | packages/provider/src/config-service.ts:334-390 | adding a model leaves the others where they are |
| ModelMembership.AddedGoesLast | packages/provider/src/config-service.ts:371-378 | a model that was in no list before goes last |
| ModelMembership.DeleteKeepsOrder | packages/provider/src/config-service.ts:583-628 | deleting a model leaves the others where they are |
| ModelMembership.RenameInPlace | packages/provider/src/config-service.ts:427-441 | a rename happens in place if and only if no shown model lies between a left-over entry for the new id and the renamed model |
| ModelMembership.RenameKeepsPlace | packages/provider/src/config-service.ts:427-441 | so always when the stored order has no left-over entry for the new id |
| ModelMembership.RenameCanMove | packages/provider/src/config-service.ts:430-441 | after three commands and an inherited model that disappears, a rename moves the last model to the front |
| ModelMembership.SaveShows | packages/provider/src/config-service.ts:684-708 | saving other fields shows exactly the same list |
| ModelMembership.PersonalModels.AddPersonalModel | packages/provider/src/config-service.ts:334-390 | the command, with its idempotent case and its errors |
| ModelMembership.PersonalModels.RenamePersonalModel | packages/provider/src/config-service.ts:392-452 | the command, with its errors in the order of the original |
| ModelMembership.PersonalModels.DeletePersonalModel | packages/provider/src/config-service.ts:583-628 | the command and its errors |
| ModelMembership.PersonalModels.ReorderPersonalModels | packages/provider/src/config-service.ts:306-332 | the command and its errors |
| ProviderRegistry.IndexModels | packages/provider/src/registry.ts:128-134 | the loop indexes a duplicate-free list and stops at the first repetition |
| ProviderRegistry.BuildIndexes | packages/provider/src/registry.ts:120-139 | both indexes agree with the view, or the error names a genuine repetition |
| ProviderRegistry.ProviderRegistry.Replace | packages/provider/src/registry.ts:108-113 | view, revision, indexes and event; a duplicate leaves the new view with the old indexes |
| ProviderRegistry.ProviderRegistry.GetProvider | packages/provider/src/registry.ts:80-82 | the indexed lookup equals a linear search of the view |
| ProviderRegistry.ProviderRegistry.GetModel | packages/provider/src/registry.ts:84-86 | the same for models |
| ProviderRegistry.ProviderRegistry.ValidateSelection | packages/provider/src/registry.ts:88-106 | the indexed validation equals the one on the view |
| ProviderRegistry.AcceptsWhatIsOffered | packages/provider/src/registry.ts:143-196 | a selection is accepted if and only if a listed model offers it; an empty speed counts as offered |
| ProviderRegistry.AcceptsWhatIsDeclared | packages/provider/src/registry.ts:143-196 | apart from the empty speed, accepted if and only if a listed model declares the level and the speed |
| ProviderRegistry.EmptySpeedIsAccepted | packages/provider/src/registry.ts:181-196 | the empty speed is accepted although the model does not declare it |
| ProviderResolver.ProviderOrderIsExact | packages/provider/src/resolver.ts:373-394 | every effective provider is listed exactly once, account families first |
| ProviderResolver.ResolverShowsVisible | packages/provider/src/resolver.ts:253-266 | the resolver lists the models that the edit commands call visible |
| ProviderResolver.CollectRegistryProviders | packages/provider/src/resolver.ts:327-351 | the loop publishes complete providers with their executable models and skips the others |
| ProviderResolver.PublishedExactly | packages/provider/src/resolver.ts:327-351 | a provider is published if and only if it is complete and has an executable model |
| ProviderResolver.ModelIsPublished | packages/provider/src/resolver.ts:233-351 | exactly which models are published: the enabled and complete ones of complete providers whose account is entitled, or which are not switched off, and which are current |
| ProviderResolver.PublishedInOrder | packages/provider/src/resolver.ts:327-351 | providers are published in the order in which they are listed |
| ProviderResolver.ResolverOutputIsDistinct | packages/provider/src/resolver.ts:233-352 | no provider and no model is published twice, so the duplicate errors of the registry are unreachable |

## Left out

- Sockets, processes, file system calls, timers, UUIDs, JSON text, UTF-8, base64 and PNG decoding: they are inputs of the model (decoded frames, fresh ids, lengths, whether a call succeeds).
- Error offsets and message texts of the option language, and the offsets in its syntax trees: errors are kinds.
- CelEvaluator.EvaluateSafe: numbers are exact reals with the range checks of the original, so IEEE rounding, infinities by overflow, NaN and negative zero are not modelled; division and remainder by zero are the error that the range check makes of them.
- CelEvaluator.RemainderBounds: the remainder is that of exact reals, not of doubles.
- ModelOptionMaps.OptionMapIsSafe: JSON-safety is proved over exact reals, as in `CelEvaluator.EvaluateSafe`.
- ModelOptionMaps.RequestIsSafe: the same.
- CelEvaluator.ComparisonTrichotomy: strings are ordered by character, as in `CelEvaluator.StringLessTransitive`.
- CelSemantics.EvaluatesToMeaning: its numbers and strings are those of the evaluator: exact reals, ordered by character.
- CelLexing.MaximalMunch: a literal with half of a surrogate pair is no lexeme, as in `CelTokenizer.ReadString`.
- CelGrammar.ParsesTheGrammar: which of the errors a refused token list gets is stated for member access and calls, and else by `CelParser.Parser.ParseAll` only.
- CelEvaluator.StringLessTransitive: strings are compared by character, while the original compares UTF-16 code units; they differ only outside the basic plane.
- CelTokenizer.ReadString: an escape that denotes one half of a surrogate pair is an error here, since it has no character; the original accepts it.
- CelEvaluator.JsonEqualsIsEquality: zero and negative zero, which the original tells apart, are one number here.
- Key order, prototypes, freezing and aliasing of JSON objects: they are finite maps.
- Listeners that throw, sources that call back synchronously out of a read, failed locks and corrupt control files.
- PipCoordinator.PipSessionCoordinator.Reconcile: a presenter call that fails is taken to have had no effect.
- PipCoordinator.PipSessionCoordinator.BindCaptureInput: a capture is its frame, the length of its data and its padding; width, height, title and the PNG header are not modelled.
- PipSessionNode's request bookkeeping, acknowledgement checks, heartbeats and reconnects: only its framing is modelled.
- PipDelivery.EpochIsTraffic: a line that arrives while an earlier one of its connection is handled is handled after it in the original; here its step comes then.
- PipServer.PipSessionServer.OnLine: the authenticity checks of a handshake are one boolean, and responses to the client are not modelled.
- RegistryRefresh.ProviderRegistryService.ReceiveSources: the resolver is a boolean (resolved or threw), and replacing the registry is taken not to throw, which `ProviderResolver.ResolverOutputIsDistinct` justifies; save generations are compared as maps, not as serialized text.
- AccountRefresh.AccountProviderService.Handle: a first read that joins the round in flight leaves no waiter in the class; `AccountReads` follows such reads on values.
- AccountReads.SharedReadsSettle: that the loop does end is shown by `AccountRefresh.Quiesces`, which fixes what the sources return.
- Error events of the refresh loops appear only through the calls that their listeners make.
- Reasons of refreshes are sets; the original also keeps their order of insertion.
- RemoteLease.RemoteSynchronizer.AcquireLease: the clock is shared and never goes back, and a lease lasts for a positive time.
- RemoteLease.RemoteSynchronizer.FinishLease: a lock that fails while finishing, after which the original tries to finish once more, is not modelled.
- ActiveRelease.ActiveIsJoin: nobody but the modelled steps changes the active file, and its path is the only coordination between processes.
- ActiveRelease.BuiltinConfigSource.ApplyRemoteRelease: an apply is one step, so disposing between waiting for the lock and its body is not modelled.
- SnapshotCache.CacheAgreesWithLoading: a load reads every path once, and a canonical read is given a canonical load.
- ModelMembership.CommandMembers: exact model rules, enabling, provider creation and deletion, revision conflicts and trimming of ids are not modelled; the inherited list is given with each command.
- ProviderResolver.PublishedExactly: validation of provider and model configs, templates and rule composition are booleans of the candidates.
- Credential checks, native accessibility, launcher, permission and installer code, the RPC package, the formal-proof package, motion profiles and the server's command line: they would only add easy members or depend on the operating system.
