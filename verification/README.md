# Verification of the ags command-line tool

A Dafny model of the parts of the tool where several actors, orders of events or
encodings meet, with proofs about all of their inputs and runs.

- **Interrupt and telemetry hand-off** (`Interrupt*.dfy`, `Outcomes.dfy`). The command
  path, the spawned gather task and the Ctrl-C watcher share a slot, two flags and a label.
  They are a labelled transition system over all interleavings and any number of SIGINTs;
  an inductive invariant carries the theorems, and `InterruptDelivery.dfy` says exactly when
  the one event is delivered with the real exit code. `InterruptLabels.dfy` says what every
  event speaks for, and `InterruptStatics.dfy` ties the imperative end of the command path
  to that system.
- **Argument pre-scanner** (`GlobalFlags.dfy`, `FlagScanner.dfy`, `FlagTheorems.dfy`,
  `FlagMeaning.dfy`, `Text.dfy`). Two index-driven scanners over argument lists, what each
  flag means, and the printer that rebuilds what the user typed.
- **Schema reader** (`SpecReader*.dfy`, `JsonValue.dfy`). `$ref`
  expansion over a possibly cyclic document: termination without the depth cap, the exact
  meaning of the cap, of circular warnings and of missing ones, what each schema
  expands to, and conformance of the result to the members of the schema (Schema Object and
  Reference Object of the OpenAPI Specification 2.0).
- **Run lifecycle** (`WorkflowEvents.dfy`, `ExecutionAdapter.dfy`, `RunLifecycle.dfy`,
  `LifecycleTheorems.dfy`, `LifecycleMeaning.dfy`, `StepProtocol.dfy`, `RunAccounting.dfy`).
  Call traces on presentation surfaces for every event stream, executor result and failure,
  with the telemetry client as a linear resource and the run's counts as a conservation law.
- **Layered schema cache** (`SchemaCache.dfy`, `SchemaCacheTheorems.dfy`,
  `SchemaCacheMeaning.dfy`). Memory over version-gated files over the bundled specs, under
  any history of loads, faults and other processes.
- **Codecs, contracts and catalogue** (`BindingCodec.dfy`, `RequestCodec.dfy`,
  `WireForms.dfy`, `ContractResolution.dfy`, `OpenApiSpec.dfy`, `Sorting.dfy`, `Catalogue.dfy`,
  `CatalogueTable.dfy`, `CatalogueMeaning.dfy`, `ServiceParser.dfy`, `Dispatch.dfy`,
  `WorkflowInputs.dfy`). Round trips with their exact exceptions and the exact texts each
  decoder accepts, contract resolution, the catalogue generator, the CLI's own spec parser,
  and the theorem joining the last three: where both read the ids alike, the rows of the
  catalogue are exactly the contracts the CLI dispatches.

`dafny verify dfyconfig.toml` checks everything.

## Findings

Where the code and its documentation disagree the model follows the code.

- invocation/mod.rs:108-112 says either order of taking yields exactly one event. With one
  SIGINT the forced exit can fall between beginning and completing it
  (`OneSigintCanLoseTheEvent`). One event with the real exit code is delivered if and only if
  no SIGINT came, or one after ownership was declared (`DeliveryExactly`).
- invocation/mod.rs:236-238 says ownership is decided before any signal can arrive.
  `update` declares it after its prompts (handlers/update.rs:323), and then the event and
  the exit code can differ (`LateOwnershipCanDisagree`).
- spec-reader.py:61-63 says each `{}` substitution warns. A reference that does not resolve
  and an array without `items` do not. Some substitution is silent if and only if a path of
  references reaches a position without a schema (`SilentExactly`, `EveryWarningExactly`),
  and, where types are standard, only then does an example without warnings fail its schema
  (`ExampleConformsExactly`).
- phase_execution.rs:205-210: when an error leaves the executor from inside a step,
  `run_completed` reports zero counts although that step's start was already reported.
  `RunCompletedCountsExactly` shows that this is the only case in which they differ.
- generate_cli_command_catalogue.py:73-77 says the version rule mirrors the CLI's.
  `MirrorExactly` gives all differences: digits beyond ASCII, which are listed or raise,
  numerals `int` refuses for their length, numbers past 32 bits and a leading plus sign.
- workflow.rs:93-95 says a `const` key means a literal. With a non-boolean `sensitive` it
  does not (`KeysDiscriminate`).
- repository.rs:164-185 accepts a display name, but only the cached file answers to it: it
  loads exactly while that file is a readable one of this version (`DisplayNameLoadsExactly`).

## Model

| member | source | states |
|---|---|---|
| `InterruptInvariant.StepKeepsInv` | crates/accelbyte-ags-cli/src/invocation/mod.rs:303-342 | Every action of every actor (SIGINT, watcher, gather task, command path) keeps the inductive invariant: the context is conserved, takers are exclusive, the event log matches the program counters |
| `InterruptInvariant.ReachableInv` | crates/accelbyte-ags-cli/src/invocation/mod.rs:555-614 | The invariant holds in every state of every interleaving with any number of SIGINTs |
| `InterruptTheorems.AtMostOneTaker` | crates/accelbyte-ags-cli/src/invocation/mod.rs:101-140 | At most one actor ever takes the telemetry context; at most one event begins, and an event that completes is the one that began |
| `InterruptTheorems.WatcherEventForces130` | crates/accelbyte-ags-cli/src/invocation/mod.rs:303-342 | If ownership is never declared, or declared before the first SIGINT, a process whose watcher took the context exits 130 |
| `InterruptTheorems.WatcherEventForces130Exactly` | crates/accelbyte-ags-cli/src/invocation/mod.rs:566-581 | After the command returned, a watcher-held context forces 130 on every continuation if and only if ownership is not set or the command's own code is 130 |
| `InterruptTheorems.UnownedInterruptExits130` | crates/accelbyte-ags-cli/src/invocation/mod.rs:264-269 | An unowned run whose interrupt flag is set before the check exits 130 on every continuation |
| `InterruptTheorems.ReturnedCommandIsFixed` | crates/accelbyte-ags-cli/src/invocation/mod.rs:227-262 | Once the command returned, its result, its ownership and its surface never change again and a taken context stays taken |
| `InterruptTheorems.HistoryOfSchedule` | crates/accelbyte-ags-cli/src/invocation/mod.rs:866-893 | The surface, the gathered context and the result in a state are exactly the ones the schedule finalized, gathered and returned |
| `InterruptTheorems.UninterruptedRun` | crates/accelbyte-ags-cli/src/invocation/mod.rs:48-81 | Over every schedule without a SIGINT the exit code is the command's own, and exactly when gathering succeeded one event completes, carrying that code and the last finalized surface, else the gathered one |
| `InterruptLabels.UninterruptedLabel` | crates/accelbyte-ags-cli/src/invocation/mod.rs:186-206 | In every run without a SIGINT the event names the gathered command path, the surface finalized last where one was, else the gathered one, and the code the process exits with |
| `InterruptLabels.CommandEventLabel` | crates/accelbyte-ags-cli/src/invocation/mod.rs:186-206 | Interrupted or not, the event the command path begins speaks for the published context under the label finalized last, with the outcome of the command's own result |
| `InterruptLabels.WatcherEventLabel` | crates/accelbyte-ags-cli/src/invocation/mod.rs:333-340 | In every run whose watcher began an event, that event speaks for the published context under the label finalized last by the time it was labelled, as a cancelled run with code 130 |
| `InterruptLabels.OutcomeReportsResult` | crates/accelbyte-ags-cli/src/invocation/mod.rs:555-614 | The outcome of an event: its status, the code the process exits with uninterrupted, and the error's class, HTTP status and code exactly where there was an error |
| `InterruptTheorems.OnlyInterruptsSpoilDelivery` | crates/accelbyte-ags-cli/src/invocation/mod.rs:101-112 | A begun event that never completes, or carries another code than the exit code, needs a SIGINT |
| `InterruptDelivery.DeliveryExactly` | crates/accelbyte-ags-cli/src/invocation/mod.rs:107-112 | For every number of SIGINTs: all ended runs that gathered a context deliver exactly one event, carrying the real exit code, if and only if there was no SIGINT, or one SIGINT after ownership was declared |
| `InterruptDelivery.UnownedSigintsLoseTheEvent` | crates/accelbyte-ags-cli/src/invocation/mod.rs:333-340 | For every positive number of SIGINTs, an unowned run that delivers nothing |
| `InterruptDelivery.SecondSigintLosesTheEvent` | crates/accelbyte-ags-cli/src/invocation/mod.rs:312-331 | For every number of SIGINTs above one, an owned run that delivers nothing |
| `InterruptTheorems.OwnedInterruptChangesNothing` | crates/accelbyte-ags-cli/src/invocation/mod.rs:312-331 | Ownership declared before a single Ctrl-C: deleting the interrupt from the schedule leaves a possible run with the same exit code, events and surface |
| `InterruptTheorems.ErasedRunIsCalm` | crates/accelbyte-ags-cli/src/invocation/mod.rs:303-331 | The erased schedule runs step for step to the same state without the interrupt's own marks |
| `InterruptTheorems.OwnedRunNeedsSecondInterrupt` | crates/accelbyte-ags-cli/src/invocation/mod.rs:227-242 | Owned before the first SIGINT, only a second SIGINT can change the exit code to 130, and the watcher never takes the context |
| `InterruptTheorems.SecondInterruptForceQuits` | crates/accelbyte-ags-cli/src/invocation/mod.rs:317-340 | From a watcher that defers, or is still sending its event, a further SIGINT can always end the process with 130, and nothing more is sent |
| `InterruptTheorems.OneSigintCanLoseTheEvent` | crates/accelbyte-ags-cli/src/invocation/mod.rs:108-112 | A run with one SIGINT in which nothing is delivered: "exactly one event" is only exactly one taker |
| `InterruptTheorems.LateOwnershipCanDisagree` | crates/accelbyte-ags-cli/src/invocation/handlers/update.rs:318-325 | Ownership declared after the watcher decided: the event says 130 and the process exits with any other code |
| `InterruptTheorems.DeliveredCodeCanDisagree` | crates/accelbyte-ags-cli/src/invocation/mod.rs:566-581 | The command path delivers "exit 0", then observes the interrupt and exits 130 |
| `InterruptStatics.RunMainIsARun` | crates/accelbyte-ags-cli/src/invocation/mod.rs:555-614 | The sequential command path is one run of the transition system, taking only its own steps |
| `InterruptStatics.ProcessStatics.FinishSelfOwned` | crates/accelbyte-ags-cli/src/invocation/mod.rs:555-614 | The procedure on the shared statics has the exit code, the events and the final statics of that run: one event exactly when gathering left a context, speaking for it under the finalized surface, else the gathered one, with the outcome of the command's result |
| `InterruptStatics.ProcessStatics.TakeInterruptTelemetry` | crates/accelbyte-ags-cli/src/invocation/mod.rs:132-140 | Takes what the slot held and leaves it empty |
| `InterruptStatics.ProcessStatics.PublishInterruptTelemetry` | crates/accelbyte-ags-cli/src/invocation/mod.rs:123-130 | Fills the slot and changes nothing else |
| `FlagScanner.PreScanGlobalFlags` | crates/accelbyte-ags-cli/src/invocation/flags.rs:185-236 | The index-driven loop computes the recursive scan: same flags, same remaining arguments, same error |
| `FlagScanner.FlagRecord.ApplyFlag` | crates/accelbyte-ags-cli/src/invocation/flags.rs:241-330 | Writes exactly the field of the flag, or reports the flag's error and changes nothing |
| `FlagScanner.FlagRecord.CollectTelemetryPairs` | crates/accelbyte-ags-cli/src/invocation/flags.rs:81-143 | Pushes exactly the pairs of the set flags, in print order |
| `FlagScanner.PreScanLeafSelectors` | crates/accelbyte-ags-cli/src/invocation/flags.rs:354-411 | The leaf-selector loop computes the recursive leaf scan |
| `FlagTheorems.ScanConcat` | crates/accelbyte-ags-cli/src/invocation/flags.rs:185-236 | If a is accepted, scanning a ++ b is scanning b from a's flags with the remainders concatenated |
| `FlagTheorems.RejectionIsFinal` | crates/accelbyte-ags-cli/src/invocation/flags.rs:208-228 | A rejected list that does not end in a flag still waiting for its value stays rejected with the same error whatever follows |
| `FlagTheorems.RejectionIsFinalExactly` | crates/accelbyte-ags-cli/src/invocation/flags.rs:208-228 | A rejection is final, whatever follows, if and only if no flag was still waiting at the end |
| `FlagTheorems.WaitingIsNotFinal` | crates/accelbyte-ags-cli/src/invocation/flags.rs:215-223 | Giving a waiting flag a value changes the verdict |
| `FlagTheorems.RescanChangesNothing` | crates/accelbyte-ags-cli/src/invocation/flags.rs:229-235 | Scanning what remains again, from any flags, changes nothing |
| `FlagTheorems.RemainingIsASubsequence` | crates/accelbyte-ags-cli/src/invocation/flags.rs:229-235 | What remains is an order-preserving subsequence of the input, no element of which the scan would read |
| `FlagTheorems.ValueFormsAgree` | crates/accelbyte-ags-cli/src/invocation/flags.rs:197-224 | `flag v` equals `flag=v` in every context unless v looks like a flag |
| `FlagTheorems.ValueFormsAgreeExactly` | crates/accelbyte-ags-cli/src/invocation/flags.rs:210-223 | The two forms agree in every context if and only if v does not look like a flag |
| `FlagMeaning.SwitchesMean` | crates/accelbyte-ags-cli/src/invocation/flags.rs:241-330 | Each of the eight switches sets its own field of the flags and no other |
| `FlagMeaning.TextFlagsMean` | crates/accelbyte-ags-cli/src/invocation/flags.rs:276-327 | Profile, page limit, output and namespace take any value not looking like a flag, the lone `-` included: each sets its own field and no other, `-` makes the output standard output, a blank namespace is refused |
| `FlagMeaning.ChoiceFlagsMean` | crates/accelbyte-ags-cli/src/invocation/flags.rs:252-273 | The choices of the format and of the surface flag, and nothing else, are accepted |
| `FlagMeaning.TimeoutMeans` | crates/accelbyte-ags-cli/src/invocation/flags.rs:302-320 | A numeral is accepted as a timeout if and only if it is at least 1 and fits 64 bits |
| `FlagMeaning.DashIsNoValue` | crates/accelbyte-ags-cli/src/invocation/flags.rs:215-223 | Every value-taking flag refuses, under its own name, a following argument that starts with a dash and is not the lone `-`, and refuses to stand last |
| `FlagMeaning.ShortFormsMean` | crates/accelbyte-ags-cli/src/invocation/flags.rs:247-276 | Wherever they stand, `-v`, `-q`, `-y` and `-n` scan as their long forms do, and left waiting for a value each is refused under its own name |
| `FlagMeaning.OthersAreLeft` | crates/accelbyte-ags-cli/src/invocation/flags.rs:229-235 | An argument that names none of the flags, nor assigns to one that takes a value, is left where it stands and changes nothing |
| `FlagTheorems.ScanKeepsPrintable` | crates/accelbyte-ags-cli/src/invocation/flags.rs:241-330 | Reachable flags have a non-blank namespace, a timeout of at least 1, no file named `-` and no parsed page limit |
| `FlagTheorems.PrintThenScan` | crates/accelbyte-ags-cli/src/invocation/flags.rs:72-143 | Printing and scanning again gives the flags back, with nothing left over, if and only if they have that form |
| `FlagTheorems.NormalForm` | crates/accelbyte-ags-cli/src/invocation/flags.rs:72-143 | For every accepted argument list, printing its flags and scanning again yields the same flags and no remaining arguments |
| `FlagTheorems.ScansCommute` | crates/accelbyte-ags-cli/src/invocation/flags.rs:354-411 | When both scans accept an argument list, either order succeeds with the same flags, selectors and remaining arguments |
| `FlagTheorems.CommutationNeedsBothToSucceed` | crates/accelbyte-ags-cli/src/invocation/flags.rs:354-411 | A list the global scan rejects alone but accepts after the leaf scan took the offending selector |
| `FlagMeaning.SelectorsMean` | crates/accelbyte-ags-cli/src/invocation/flags.rs:354-411 | Each leaf selector, in both forms, sets its own field and no other |
| `FlagMeaning.DashIsNoSelectorValue` | crates/accelbyte-ags-cli/src/invocation/flags.rs:354-411 | A leaf selector refuses, under its own name, a following argument that starts with a dash, the lone `-` included, and refuses to stand last |
| `Text.DecimalRoundTrip` | crates/accelbyte-ags-cli/src/invocation/flags.rs:126-128 | A decimal print parses back to the number exactly when it is below the bound of the machine type |
| `Text.SplitOnceUnique` | crates/accelbyte-ags-cli/src/invocation/flags.rs:197-199 | The first-separator split is the only split whose left half has no separator |
| `Text.SplitAllJoins` | demos/engine/spec-reader.py:48-52 | Splitting everywhere gives separator-free parts that join to the text |
| `Text.SplitAllUnique` | demos/engine/spec-reader.py:48-52 | It is the only list of separator-free parts that does |
| `SpecReader.ResolveRef` | demos/engine/spec-reader.py:44-53 | The loop down the path computes the target of a reference, null for anything that is not an object there |
| `SpecReader.FollowingShrinks` | demos/engine/spec-reader.py:71-79 | Following a reference not yet in `seen` strictly shrinks the set of references still to follow: the measure by which expansion terminates with the depth cap removed |
| `SpecReaderMeaning.ReferenceNames` | demos/engine/spec-reader.py:44-53 | Over every document: a reference of one segment names that member of it, a longer one the member of what the reference without its last segment names, if that is an object; nothing outside the document is named |
| `SpecReaderMeaning.ObjectExpands` | demos/engine/spec-reader.py:89-94 | Over every object schema the example names exactly the declared properties, in order, each with the expansion of its own schema one level deeper; its warnings are theirs, and it raises if and only if one of them does |
| `SpecReaderMeaning.ArrayExpands` | demos/engine/spec-reader.py:95-96 | An array example holds exactly one item, the expansion of `items` |
| `SpecReaderMeaning.ScalarExpands` | demos/engine/spec-reader.py:97-103 | The remaining schemas give 0, 0.0, false or a string, by their type |
| `SpecReaderMeaning.UncomposedExactly` | demos/engine/spec-reader.py:80-88 | The warning about composition is given if and only if one of the three combining keys stands without a type and without properties |
| `SpecReaderMeaning.ReferenceExpands` | demos/engine/spec-reader.py:71-79 | A reference gives the expansion of what it names, one level deeper and with the reference seen, or `{}` and a circular warning exactly when it was seen |
| `SpecReaderMeaning.OddSchemas` | demos/engine/spec-reader.py:64-70 | No schema gives `{}` silently at any depth; any schema past depth 8 gives `{}` with a warning |
| `SpecReaderMeaning.RefsOfMembers` | demos/engine/spec-reader.py:71-96 | The references met in a schema before following any, member by member |
| `SpecReaderTheorems.CapIsIrrelevant` | demos/engine/spec-reader.py:66-70 | The capped expansion equals the uncapped one, value, warnings and exceptions alike, if and only if it did not warn about depth |
| `SpecReaderTheorems.CircularExactlyOnCycles` | demos/engine/spec-reader.py:71-79 | With the cap removed, a circular warning appears if and only if following references from the schema comes back to a reference already on the path; repeated siblings never cause one |
| `SpecReaderTheorems.CappedCircularExactly` | demos/engine/spec-reader.py:71-79 | In the script's own run a circular warning always names a reference some path comes back to, and a run that kept within the cap warns on every cycle |
| `SpecReaderConformance.SilentExactly` | demos/engine/spec-reader.py:59-65 | An unreported `{}` appears if and only if a path of references, none followed twice, ends in a schema with a position that holds none (an unresolved reference, an array without `items`, a null) |
| `SpecReaderConformance.EveryWarningExactly` | demos/engine/spec-reader.py:59-63 | A run that kept within the cap reports every `{}` if and only if there is no such path |
| `SpecReaderConformance.TypedExpands` | demos/engine/spec-reader.py:56-103 | If the schemas reached along references use the six type keywords, nothing raises, whether or not the references resolve |
| `SpecReaderConformance.ExpansionConforms` | demos/engine/spec-reader.py:56-103 | Over such schemas an expansion with no substitution conforms to the schema through all references; conformance reads the members of the schema, not the branch the expander takes |
| `SpecReaderConformance.ConformsByShape` | demos/engine/spec-reader.py:71-103 | Conformance to the members of a schema is conformance to the branch the expander takes, for every value |
| `SpecReaderConformance.SilenceDoesNotConform` | demos/engine/spec-reader.py:64-65 | An expansion with an unreported `{}` in it does not conform, over any document |
| `SpecReaderConformance.ExampleConformsExactly` | demos/engine/spec-reader.py:56-63 | Over such schemas, an example produced without any warning conforms to its schema if and only if there is no path to a position without a schema |
| `SpecReaderConformance.DanglingReferenceIsSilent` | demos/engine/spec-reader.py:76-79 | A reference that does not resolve yields `{}` without a warning and does not conform |
| `SpecReaderConformance.ItemlessArrayIsSilent` | demos/engine/spec-reader.py:95-96 | An array without `items` yields `[{}]` without a warning and does not conform |
| `ExecutionAdapter.ExecutionFrontendAdapter.HandleEvent` | crates/accelbyte-ags-cli/src/frontend/sink.rs:159-253 | One executor event: the adapter's new fields and the calls made on the frontend and the telemetry client, in order |
| `ExecutionAdapter.ExecutionFrontendAdapter.HandleEvents` | crates/accelbyte-ags-cli/src/frontend/sink.rs:159-253 | A whole event stream, as the fold of single events |
| `ExecutionAdapter.AdapterTrace` | crates/accelbyte-ags-cli/src/frontend/sink.rs:140-253 | For every event stream the frontend sees the filter-map of its input (progress only when suppressed), one capture is queued per step event naming the operation at its index in the latest `WorkflowStarted`, and the latest aggregate is held |
| `RunLifecycle.DriveRun` | crates/accelbyte-ags-cli/src/invocation/phase_execution.rs:96-203 | The procedure makes exactly the driving calls, classifies the executor result and reclaims the client; what those calls and that classification are is stated over the executor result by the rows on verdicts, returns and captures |
| `RunLifecycle.RunPhaseOwnedExecution` | crates/accelbyte-ags-cli/src/invocation/phase_execution.rs:314-451 | On either surface arrangement the procedure returns and journals what the lifecycle function says |
| `LifecycleTheorems.SplitOrder` | crates/accelbyte-ags-cli/src/invocation/phase_execution.rs:331-385 | Separate surfaces: `RunStarted` first, the final surface touched only after the progress surface's one `finish`, nothing on the progress surface after it, one last `finish` on the final surface, and none at all when the teardown error is returned |
| `LifecycleTheorems.UnifiedOrder` | crates/accelbyte-ags-cli/src/invocation/phase_execution.rs:386-449 | One surface: exactly one `finish`, after every other call on it |
| `LifecycleTheorems.RunFinishedRepeats` | crates/accelbyte-ags-cli/src/invocation/phase_execution.rs:410-425 | `RunFinished` carries the executor's own outcome when it returned without a pending error, else failed, and is repeated, as failed, exactly when rendering an output fails on a unified surface |
| `LifecycleMeaning.RunReturnsExactly` | crates/accelbyte-ags-cli/src/invocation/phase_execution.rs:331-449 | What every run returns: the teardown's error exactly when a successful run's own surface fails to close after a clean rendering, else the run's error code, a failed rendering's, or the executor's outcome, with the run's client and the service output's own body |
| `LifecycleMeaning.CleanRunExits` | crates/accelbyte-ags-cli/src/invocation/phase_execution.rs:66-73 | With no error, no failed rendering and a clean teardown the process exits 0, 1 or 2 by the executor's outcome |
| `LifecycleMeaning.CallOrder` | crates/accelbyte-ags-cli/src/invocation/phase_execution.rs:96-203 | `RunStarted` and the capture of the start come first; the capture of the end comes right before the first `RunFinished`, the trace right after it, and nothing is captured later |
| `LifecycleMeaning.EventsOfARun` | crates/accelbyte-ags-cli/src/invocation/phase_execution.rs:96-203 | The frontend of every run sees `RunStarted`, the forwarded events, the verdict, and the failed verdict of a unified rendering, in that order and nothing else |
| `LifecycleMeaning.EventIsShown` | crates/accelbyte-ags-cli/src/frontend/sink.rs:159-253 | Each executor event shows its own fields, or nothing: a run's end never, and under suppression only progress |
| `LifecycleMeaning.StepEventReported` | crates/accelbyte-ags-cli/src/frontend/sink.rs:184-234 | Each step event queues one capture of its own index, id, outcome, reason, attempts, duration and error facts, under the service and operation of its step in the latest announcement, or its local action |
| `LifecycleTheorems.ClientIsLinear` | crates/accelbyte-ags-cli/src/invocation/phase_execution.rs:353-363 | Every capture sits on the run's own client, which is either handed back unflushed or flushed exactly once as the last call, never both and never neither |
| `LifecycleTheorems.ResultIsShownExactly` | crates/accelbyte-ags-cli/src/invocation/phase_execution.rs:372-426 | The output is rendered exactly when there is one and no error, on the showing surface; the errors rendered are exactly the run's own or the one its rendering raised; the trace is rendered exactly when given; a cut-short split run shows nothing |
| `LifecycleTheorems.ExitsZeroExactly` | crates/accelbyte-ags-cli/src/invocation/phase_execution.rs:140-173 | The process exits 0 if and only if the executor succeeded with no pending error, the output (if any) rendered and the carrying surface tore down cleanly |
| `LifecycleTheorems.ExecutorErrorKeepsItsCode` | crates/accelbyte-ags-cli/src/invocation/phase_execution.rs:140-173 | An executor or pending error keeps its own exit code, is rendered, and is recorded as one failed `RunFinished`, whatever the surfaces do |
| `WorkflowEvents.StepLoopCounts` | crates/ags-runtime/src/runtime/workflows/executor.rs:1338-1345 | The step loop's aggregate grows by exactly the step events it emits, by outcome |
| `WorkflowEvents.StepLoopBalances` | crates/ags-protocol/src/workflow.rs:1266-1371 | A started step ends with exactly one outcome unless an error escaped |
| `StepProtocol.StepLoopFollows` | crates/ags-runtime/src/runtime/workflows/executor.rs:262-1271 | The step loop starts steps in order, one at a time, ends each under its own name before the next, stops at the first failed or cancelled one, and names the last step it started |
| `StepProtocol.RunFollows` | crates/ags-runtime/src/runtime/workflows/executor.rs:1285-1292 | Every run past the precheck announces itself first and, unless an error escaped from inside a step, reports its aggregate last, with only step events of that protocol in between |
| `RunAccounting.CapturesOfARun` | crates/accelbyte-ags-cli/src/invocation/phase_execution.rs:85-95 | With telemetry on, a run queues `run_started`, one capture per step event and `run_completed`, in that order, on every path |
| `LifecycleMeaning.RunCompletedSays` | crates/accelbyte-ags-cli/src/invocation/phase_execution.rs:205-241 | The last capture says completed, failed or cancelled by the executor's outcome, carries the class, HTTP status and code of the run's own error exactly where there is one, and the latest aggregate, zeros before the first |
| `RunAccounting.RunCompletedCountsExactly` | crates/accelbyte-ags-cli/src/invocation/phase_execution.rs:205-241 | `run_completed` counts exactly the step captures queued before it, started, succeeded, failed, skipped and cancelled each on its own, if and only if no error escaped the executor from inside a step; started is always the sum of the others |
| `RunAccounting.AggregateCounts` | crates/ags-runtime/src/runtime/workflows/executor.rs:1285-1292 | The aggregate agrees with the step events, and is all zeros although steps started when an error escaped |
| `RunAccounting.EscapedErrorIsNotCounted` | crates/accelbyte-ags-cli/src/invocation/phase_execution.rs:205-210 | One step started and captured, none counted |
| `RunAccounting.CompletedReason` | crates/accelbyte-ags-cli/src/invocation/phase_execution.rs:252-282 | The reason is the stage that stopped the run before its first step, else `no_input` exactly when the failure's own code says so |
| `SchemaCache.CacheDirectory.LoadFromCache` | crates/ags-runtime/src/catalogue/cache.rs:40-69 | A read returns a same-version schema, treats corruption, other versions, absence and denied access as misses, and removes only a rejected file |
| `SchemaCache.CacheDirectory.WriteToCache` | crates/ags-runtime/src/catalogue/cache.rs:98-126 | An atomic rewrite: the whole envelope or an unchanged directory |
| `SchemaCache.CacheDirectory.ClearDefinitionCache` | crates/ags-runtime/src/catalogue/cache.rs:71-96 | The loop over a directory listing, stopping at the first undeletable file |
| `SchemaCache.Repository.Load` | crates/ags-runtime/src/catalogue/repository.rs:164-210 | Hot read, bundled parse, re-read under the lock against a competing writer, best-effort write |
| `SchemaCache.Repository.RefreshEverything` | crates/ags-runtime/src/catalogue/repository.rs:76-130 | Clear once, then rebuild every bundled spec, one failure never stopping the rest |
| `SchemaCache.ServiceSchemaMemoryCache.GetOrLoad` | crates/ags-runtime/src/catalogue/memory_cache.rs:27-37 | New memory, new directory and answer of a load through memory; that every answer is remembered is the row on remembered answers |
| `SchemaCache.ServiceSchemaMemoryCache.GetOrLoadBundled` | crates/ags-runtime/src/catalogue/memory_cache.rs:39-52 | The same for a bundled load, which leaves the directory alone |
| `SchemaCacheTheorems.FindIdResolves` | crates/ags-runtime/src/catalogue/manifest.rs:148-154 | With unambiguous names both names of every service resolve to its internal one |
| `SchemaCacheTheorems.LoadIsTransparent` | crates/ags-runtime/src/catalogue/repository.rs:150-191 | Through honest interference and any read, lock, removal or write fault, a load returns the parse of the bundled spec or fails, and leaves the directory honest |
| `SchemaCacheTheorems.TransparencyExactly` | crates/ags-runtime/src/catalogue/cache.rs:10-20 | Every undisturbed load returns the bundled parse if and only if no file claiming this version under a service's path holds anything else |
| `SchemaCacheTheorems.CacheTransparency` | crates/ags-runtime/src/catalogue/memory_cache.rs:10-52 | After any history of loads, bundled loads, refreshes, damage, deletions and other versions' writes, every schema answered is the bundled parse of the service asked for |
| `SchemaCacheTheorems.LoadSucceedsExactly` | crates/ags-runtime/src/catalogue/repository.rs:164-185 | When a load succeeds: the name is known, the hot read does not error, and it hits or the bundled spec answers to that very name |
| `SchemaCacheMeaning.ReadFindsExactly` | crates/ags-runtime/src/catalogue/cache.rs:40-69 | A read finds exactly the readable files of this version, errs exactly on broken media and directories, and removes exactly the rejected files it can remove |
| `SchemaCacheMeaning.ColdLoad` | crates/ags-runtime/src/catalogue/repository.rs:178-210 | A cold load answers what another process wrote exactly when it holds the lock and can read it, else the bundled parse, written exactly under the lock and where writable; without the lock it writes nothing |
| `SchemaCacheMeaning.LoadFailsWith` | crates/ags-runtime/src/catalogue/repository.rs:164-191 | Which error a failed load reports: an unknown name, an unreadable cache, or no usable bundled spec |
| `SchemaCacheTheorems.DisplayNameLoadsExactly` | crates/ags-runtime/src/catalogue/repository.rs:164-185 | A display name of its own loads if and only if the file under the internal name can be read and is an envelope of this version |
| `SchemaCacheTheorems.DisplayNameNeedsAWarmCache` | crates/ags-runtime/src/catalogue/repository.rs:164-185 | A display name fails on a cold cache and loads on a warm one |
| `SchemaCacheTheorems.LoadWarmsTheCache` | crates/ags-runtime/src/catalogue/repository.rs:152-157 | The load after an undisturbed one, under any name of the service, is a hit with the same schema |
| `SchemaCacheTheorems.ClearRemovesExactlyJson` | crates/ags-runtime/src/catalogue/cache.rs:71-96 | Clearing removes only listed JSON files and changes nothing else; a completed clear removes them all |
| `SchemaCacheMeaning.ClearFailsExactly` | crates/ags-runtime/src/catalogue/cache.rs:71-96 | Clearing fails if and only if a listed JSON file cannot be deleted |
| `SchemaCacheMeaning.RefreshWritesOneFile` | crates/ags-runtime/src/catalogue/repository.rs:48-60 | A refresh of one service writes its parse to its own file exactly when it has a parse, a manifest entry, the lock and a writable file, and otherwise changes nothing |
| `SchemaCacheMeaning.RefreshAllReports` | crates/ags-runtime/src/catalogue/repository.rs:76-130 | A refresh of everything without the lock does nothing and says so; with it, it stops with nothing rebuilt exactly at a file it cannot delete, and else reports every bundled spec once |
| `SchemaCacheTheorems.RefreshAllRepairs` | crates/ags-runtime/src/catalogue/repository.rs:62-75 | A refresh whose clear completed makes any directory honest again, however many rewrites then fail |
| `SchemaCacheTheorems.RebuildReportsEverySpec` | crates/ags-runtime/src/catalogue/repository.rs:64-68 | Every bundled spec is reported exactly once, as rebuilt or as failed |
| `SchemaCacheTheorems.FailedRebuildsWereBlocked` | crates/ags-runtime/src/catalogue/repository.rs:117-122 | A rebuild fails only if its spec does not parse, has no manifest entry, or its file cannot be written |
| `SchemaCacheTheorems.RefreshedServicesHit` | crates/ags-runtime/src/catalogue/repository.rs:62-75 | Every service reported as rebuilt then loads its bundled parse from the cache |
| `SchemaCacheTheorems.MemoryGrowsOnlyByAnswers` | crates/ags-runtime/src/catalogue/memory_cache.rs:28-52 | A failed load leaves memory unchanged; a successful one adds at most the answer under the asked name; nothing else adds to memory |
| `SchemaCacheTheorems.LoadedEntryNeverChanges` | crates/ags-runtime/src/catalogue/memory_cache.rs:28-52 | A loaded entry never changes over any history |
| `SchemaCacheMeaning.AnswersAreRemembered` | crates/ags-runtime/src/catalogue/memory_cache.rs:28-52 | Whatever a load answered, every later load of that name answers, after any history, over any directory and through any faults, and leaves the directory as it is |
| `SchemaCacheMeaning.FirstLoadIsUncached` | crates/ags-runtime/src/catalogue/memory_cache.rs:28-52 | A name not answered before is loaded as it would be without a memory |
| `SchemaCacheTheorems.SeededLoadsTouchNoDisk` | crates/accelbyte-ags-cli/src/invocation/builder.rs:1647-1656 | Once seeded by a bundled load, every later load of the service answers the bundled parse whatever the directory then holds and however reads of it would go, and leaves the directory as it is |
| `BindingCodec.BindingRoundTrip` | crates/ags-protocol/src/workflow.rs:88-225 | Decoding the untagged encoding of any step binding gives it back, for all four variants with nested transforms, elided options and 64-bit operands |
| `BindingCodec.TargetRoundTrip` | crates/ags-protocol/src/workflow.rs:227-257 | Prefixed reference strings decode to the target they encode |
| `WireForms.TargetExactly` | crates/ags-protocol/src/workflow.rs:227-257 | A text names a target if and only if it is that target's prefix followed by its name; every text with neither prefix is refused |
| `WireForms.PlainBindingMembers` | crates/ags-protocol/src/workflow.rs:88-225 | The wire form of a literal, a format and a mirror: which members each has |
| `BindingCodec.ReferenceMember` | crates/ags-protocol/src/workflow.rs:195-208 | The wire form of a reference: which members are present, under which names |
| `BindingCodec.TransformRoundTrip` | crates/ags-protocol/src/workflow.rs:156-193 | Internally tagged transforms and adjacently tagged operands decode to what they encode |
| `WireForms.TransformMembers` | crates/ags-protocol/src/workflow.rs:156-193 | The wire form of a transform: its tag and its members |
| `WireForms.OperandMembers` | crates/ags-protocol/src/workflow.rs:188-193 | The wire form of an operand: its tag and its value |
| `BindingCodec.KeysDiscriminate` | crates/ags-protocol/src/workflow.rs:88-95 | No object decodes to a variant whose key it lacks; `const` means a literal exactly when `sensitive` is absent or a boolean |
| `WireForms.BindingExactly` | crates/ags-protocol/src/workflow.rs:88-225 | Which object decodes to which binding, member by member: over every object and every binding, the first variant its members say, absent and null options alike none |
| `WireForms.TransformExactly` | crates/ags-protocol/src/workflow.rs:156-193 | Which value decodes to which transform, by its tag and members |
| `WireForms.OperandExactly` | crates/ags-protocol/src/workflow.rs:188-193 | Which value decodes to which operand, by its tag and value |
| `BindingCodec.CaptureMember` | crates/ags-protocol/src/workflow.rs:259-287 | The wire form of an output capture: one flat object with these members |
| `BindingCodec.CaptureRoundTripsExactly` | crates/ags-protocol/src/workflow.rs:259-287 | An output capture round-trips if and only if its default is not an explicit null, which comes back as no default |
| `WireForms.CaptureExactly` | crates/ags-protocol/src/workflow.rs:259-287 | Which value decodes to which output capture, member by member |
| `RequestCodec.BodyRoundTripsExactly` | crates/ags-protocol/src/request.rs:134-181 | A request body round-trips if and only if it is not a JSON object whose top-level `kind` is the string `multipart` |
| `RequestCodec.PartsRoundTrip` | crates/ags-protocol/src/request.rs:183-203 | Every list of form parts round-trips |
| `WireForms.PartMembers` | crates/ags-protocol/src/request.rs:183-203 | The wire form of a form part: its tag and its members |
| `WireForms.PartExactly` | crates/ags-protocol/src/request.rs:183-203 | Which value decodes to which form part, by its tag and members |
| `WireForms.BodyForm` | crates/ags-protocol/src/request.rs:134-181 | A JSON body is emitted bare, a multipart body in an envelope tagged `multipart` |
| `RequestCodec.DecodingFailsExactly` | crates/ags-protocol/src/request.rs:157-181 | Decoding fails if and only if the value is such a look-alike and its `value` is not a list of well-formed parts |
| `ContractResolution.VersionRoundTrip` | crates/ags-protocol/src/catalogue.rs:195-199 | Every 32-bit version prints to a text that parses back to it |
| `ContractResolution.VersionSpellingsAgree` | crates/accelbyte-ags-cli/src/invocation/resolve.rs:111-118 | `3`, `v3` and `V3` are one selector |
| `WireForms.VersionExactly` | crates/accelbyte-ags-cli/src/invocation/resolve.rs:111-118 | A text selects a version if and only if it is a 32-bit numeral behind at most one `v` or `V` and at most one plus sign; an id's version may carry a `v` only |
| `ContractResolution.ResolvedContractIsListed` | crates/accelbyte-ags-cli/src/invocation/resolve.rs:69-109 | A resolved contract is in the row of its scope, has the reported version, and is the one asked for, or the default where nothing was asked for |
| `ContractResolution.ResolveFailsExactly` | crates/accelbyte-ags-cli/src/invocation/resolve.rs:48-109 | Resolution fails exactly when no scope is chosen, the scope has no row, or the row has no contract of the chosen version |
| `WireForms.ResolutionErrors` | crates/accelbyte-ags-cli/src/invocation/resolve.rs:48-109 | Which error a failed resolution reports, naming the command, what was asked for or defaulted to, and every scope or version that could have been |
| `ContractResolution.PinningIsStable` | crates/accelbyte-ags-cli/src/invocation/resolve.rs:48-109 | Passing a resolved contract's scope and printed version explicitly resolves to the same contract |
| `ContractResolution.NoSelectorsMeansDefault` | crates/ags-protocol/src/catalogue.rs:113-123 | With no selectors, resolution yields operation o if and only if the default operation is o |
| `ServiceParser.Accumulate` | crates/ags-runtime/src/catalogue/parser.rs:39-72 | The nested loops keep, per resource, method, scope and version, the first operation visited |
| `ServiceParser.KeepFirstKeepsFirsts` | crates/ags-runtime/src/catalogue/parser.rs:53-70 | Dropping later duplicates keeps exactly the first operation of each key |
| `ServiceParser.SelectorsDispatch` | crates/ags-runtime/src/catalogue/parser.rs:77-142 | Selecting an operation's own scope and printed version dispatches, field by field, the first operation visited under its key |
| `ServiceParser.OnlyParsedOperationsDispatch` | crates/ags-runtime/src/catalogue/parser.rs:77-142 | Whatever resolves is, field by field, an operation parsed for that method under the reported scope and version |
| `ServiceParser.DefaultDispatchesExactly` | crates/ags-runtime/src/catalogue/parser.rs:78-104 | Without selectors a method dispatches if and only if it has an `admin` scope or a single scope, in `admin` where there is one, and then at that scope's highest version |
| `ServiceParser.ParsedExactly` | crates/ags-runtime/src/catalogue/parser.rs:186-232 | An entry is parsed into an operation if and only if it is the entry's own, under the five slash-free segments of its id with a readable version, not deprecated and not internal |
| `ServiceParser.MethodIsInOrder` | crates/ags-runtime/src/catalogue/parser.rs:78-104 | A method's scopes come in order and each scope's contracts by version |
| `Catalogue.CollectParserContract` | scripts/generate_cli_command_catalogue.py:200-227 | The nested loops over paths and HTTP methods, the sorts and the sorted dictionary compute the grouped contract, or stop at an operation whose version raises |
| `Catalogue.OperationIdExactly` | scripts/generate_cli_command_catalogue.py:70-87 | An id is well-formed if and only if it is five slash-free segments, the fourth, after at most one `v`, a text `isdigit` accepts and `int` reads, and these are the segments read; it raises if and only if `int` cannot read that text |
| `CatalogueMeaning.EntriesExactly` | scripts/generate_cli_command_catalogue.py:207-211 | The operations looked at are exactly those of the paths, under every HTTP method |
| `CatalogueMeaning.EntryCount` | scripts/generate_cli_command_catalogue.py:207-211 | As many as there are: none is looked at twice |
| `CatalogueMeaning.ListedExactly` | scripts/generate_cli_command_catalogue.py:212-224 | An operation is listed if and only if it is the entry's own, under the five slash-free segments of its id with a readable version, not deprecated and not internal |
| `Catalogue.CatalogueConservesOperations` | scripts/generate_cli_command_catalogue.py:200-227 | The grouped result flattens to a permutation of exactly the kept operations |
| `CatalogueTable.CatalogueShape` | scripts/generate_cli_command_catalogue.py:225-227 | Resources strictly in order, each once; every group non-empty, holding exactly its resource's operations sorted by method, scope, version and path, ties in spec order |
| `CatalogueMeaning.CatalogueIsInOrder` | scripts/generate_cli_command_catalogue.py:225-227 | Resources in strictly increasing order; within one, operations by method, then scope, then version ascending, then path, a string preceding another as a proper prefix or at the first difference |
| `Sorting.StableSortSorts` | scripts/generate_cli_command_catalogue.py:225-226 | The sort orders its input and permutes it |
| `Sorting.StableSortIsStable` | scripts/generate_cli_command_catalogue.py:225-226 | Elements with equal keys keep their order |
| `CatalogueTable.RenderCatalogue` | scripts/generate_cli_command_catalogue.py:250-294 | The loops appending lines compute the rendering |
| `CatalogueTable.PrintedTotalIsRowCount` | scripts/generate_cli_command_catalogue.py:265-292 | The printed total equals the number of table rows |
| `CatalogueTable.TotalIsPrintedOnce` | scripts/generate_cli_command_catalogue.py:265-269 | The total is printed exactly once |
| `CatalogueTable.SectionCountIsItsRows` | scripts/generate_cli_command_catalogue.py:275-292 | Each service's printed count equals the number of rows in its section |
| `CatalogueTable.SectionRowsAreTheKeptOperations` | scripts/generate_cli_command_catalogue.py:309-314 | A service's section has exactly one row per kept operation of its spec |
| `CatalogueMeaning.SectionRowsAreTheContract` | scripts/generate_cli_command_catalogue.py:285-292 | The rows of a section are the operations of its spec, group by group, each under its own resource |
| `CatalogueMeaning.SectionsAreInOrder` | scripts/generate_cli_command_catalogue.py:265-275 | One section per service, in the order of their names, under a count of them all |
| `CatalogueMeaning.SectionAnnounces` | scripts/generate_cli_command_catalogue.py:275-284 | A section opens with its service's display name, its spec name and its number of resources |
| `Dispatch.MirrorExactly` | scripts/generate_cli_command_catalogue.py:70-87 | The generator does on an entry what the CLI's parser does if and only if `int` reads what `isdigit` accepts and, unless the resource is `internal`, the version holds no non-ASCII digit, does not exceed 32 bits and carries no plus sign |
| `Dispatch.ForeignDigitFails` | scripts/generate_cli_command_catalogue.py:82-86 | A non-ASCII digit is listed and not dispatched, or raises when `int` cannot read it |
| `Dispatch.PlusSignFails` | scripts/generate_cli_command_catalogue.py:82-86 | A version with a plus sign is dispatched and not listed |
| `Dispatch.MirroredNeverRaises` | scripts/generate_cli_command_catalogue.py:218-220 | Over mirrored entries the generator raises nowhere |
| `Dispatch.EveryRowDispatches` | scripts/generate_cli_command_catalogue.py:259-262 | Where every version text is mirrored, every catalogue row, whatever order the CLI visits the paths in, is a contract its scope and version select; it selects the row's own operation exactly when that is the first visited under its key |
| `Dispatch.EveryDispatchHasARow` | scripts/generate_cli_command_catalogue.py:200-206 | Where every version text is mirrored, whatever a method resolves to, with or without selectors, has a row with the same key, id, HTTP method and path |
| `WorkflowInputs.MatchingInputs` | crates/accelbyte-ags-cli/src/invocation/workflows.rs:34-84 | Exactly the declared inputs named by some source are supplied, each from the highest-priority source: body verbatim, then namespace, form, header, query, path coerced by schema |
| `WorkflowInputs.ValueExactly` | crates/accelbyte-ags-cli/src/invocation/workflows.rs:53-84 | What a name is supplied with, read off the request: the body object's own member verbatim, else the namespace, form, header, query or path value, in that order, coerced by its schema |
| `WorkflowInputs.IntegerFlagRoundTrip` | crates/accelbyte-ags-cli/src/invocation/workflows.rs:97-101 | Every 64-bit integer typed as a flag of an integer input arrives as that integer |
| `WorkflowInputs.CoercionKeepsTextOrType` | crates/accelbyte-ags-cli/src/invocation/workflows.rs:86-118 | Coercion never rejects: the result is the raw text, or has the scalar type the schema asks for, or is what the document parser read for an array or object |
| `WorkflowInputs.BooleanFlagExactly` | crates/accelbyte-ags-cli/src/invocation/workflows.rs:108-111 | A boolean input is true or false exactly as spelled, in whatever case, or the text as typed |
| `WorkflowInputs.IntegerFlagExactly` | crates/accelbyte-ags-cli/src/invocation/workflows.rs:97-101 | An integer input is the 64-bit number its text spells behind at most one sign, or the text as typed |
| `WorkflowInputs.OtherFlagsExactly` | crates/accelbyte-ags-cli/src/invocation/workflows.rs:102-118 | Number, array and object inputs are what the foreign parsers read, or the text as typed; every other type takes the text |
| `WorkflowInputs.MembersAreRead` | crates/accelbyte-ags-cli/src/invocation/workflows.rs:74-81 | The body members supplied are the ones a lookup in the body object finds |
| `WorkflowInputs.DeclaredInputs` | crates/accelbyte-ags-cli/src/invocation/workflows.rs:46-50 | A name has a schema entry exactly when it is declared |
| `WorkflowInputs.LastDeclarationCounts` | crates/accelbyte-ags-cli/src/invocation/workflows.rs:46-50 | Of several declarations of a name the last one's schema counts |
| `WorkflowInputs.LayersAreFlags` | crates/accelbyte-ags-cli/src/invocation/workflows.rs:53-72 | Insertion order of the flag sources is the stated priority |

## Left out

- A SIGINT before the watcher is armed (the default disposition ends the process) and poisoned locks (ignored by the code).
- The update check, the footer and the rendering of a pre-surface error in `finish_self_owned`: after the decision points, without effect on exit code or events, except that building the error surface may itself fail.
- Emission of telemetry is two steps, begin and complete; transport, timeouts and the content of events beyond context, outcome and surface are not modelled.
- The table of known flags and the match arms that apply them are one enumeration, so a name in one and not in the other cannot be expressed; error messages are kept as error kinds.
- Paths are strings: a path that is not valid Unicode prints lossily in the original.
- `example` reads only what its branches read: a schema position holding a value of the wrong kind is one `Raised` outcome, whatever Python exception it is. `find_operation` is not modelled.
- The executor is a producer of event streams: a precheck rejection, a stop before the first step, and a step loop that may be left by an error. What it reports of its retries, prompts, timing and step errors is arbitrary data of the stream; how it computes them is not part of this model.
- Surfaces are journals with a chosen render and finish failure; what they draw is not modelled.
- The cache: serialising a schema and reading it back is taken to give the same schema; `refresh_all` holds the lock throughout, so only processes ignoring the lock could interleave with it, and they are not interleaved. Cache directory creation and lookup failures, file locking and gzip are parameters or left out. `has_cached_service` is a lookup.
- SchemaCacheTheorems.RefreshAllRepairs: asks that the listing names every file and that no service has an empty id, as the directory read and the manifest provide.
- The manifest and bundled-spec tables are parameters required to be unambiguous and to agree; their 25 entries are not transcribed.
- Codecs: positional array forms and numeric variant indices, which the derived decoders also accept and the encoders never emit. Objects keep document order; duplicate members, which the original's value type cannot hold, resolve to the first.
- BindingCodec.BindingRoundTrip: over JSON values, not over their text; number formatting and string escaping are not modelled.
- ServiceParser.Accumulate: parameters, bodies, summaries, descriptions and permissions of an operation, and debug assertions, are left out. The accumulator's three nested hash maps are one list of operations with distinct keys, and regrouping is a function of it; hash iteration order appears as the order in which paths are visited.
- Catalogue.CollectParserContract: permissions, parameters, body presence and summaries are left out; a non-string id raises in the original. Which characters beyond ASCII are digits, which of them `int` reads and how long a numeral it takes are parameters.
- CatalogueTable.RenderCatalogue: lines are abstract; their Markdown text and the escaping of `|` are not modelled.
- WorkflowInputs.MatchingInputs: floating-point and JSON-document parsing are uninterpreted partial functions.
- Surface selection, exit-code tables beyond the error taxonomy, clap trees, help text, HTTP, keychain, terminal handling, the tunnel and the mock servers.
- Config defaults and the pagination hint of the flag record: single reads of a field.
