# tracey_mctraceface: the trace pipeline, proved

tracey_mctraceface turns the text of `perf script` into a Fuchsia Trace Format file. Lines are
grouped and parsed into events, a filter passes some of them, a reconstructor replays them as
per-thread call stacks and logs timed begin/end events, and a writer encodes these as records with
interned strings and thread slots. This project models that whole path, from lines to bytes, and a
streaming reader of the bytes, and proves what the reader finds for *every* input.

## How the model is laid out

| layer | modules |
|---|---|
| values shared by all stages | `Texts`, `PerfEvent` |
| lines to events | `TextSearch`, `PerfScriptParser` (class), and printing and reading back: `HeaderLine`, `BranchLine`, `SampleLines`, `ErrorLine`, `TraceText` |
| filter | `TraceFilter` (class) |
| one thread as a state machine | `ThreadMachine`, and about it `StackDiscipline`, `Apportionment`, `Timing`, `SpanTiming`, `Nesting`, `TimingLimits`, `Contexts`, `CallTree`, `Samples` |
| what events mean, without batching | `StackMeaning`, `LogMeaning` |
| bytes | `Wire`, `Records`, `WireFormat`, `Reader` |
| the writer | `WriterTables`, `FxtWriter` (classes), `WriterRuns`, `StringBudget` |
| the reconstructor | `ShortenSymbol`, `DisplayNames`, `EventStream`, `Reconstruction`, `StackReconstructor` (classes) |
| end to end | `TraceNames`, `TraceStrings`, `Pipeline` |

The classes keep the fields of the C++ classes and update them in place. Each method's contract equates
the whole new state with a function of the old one (`ThreadMachine`, `WriterTables`, `Reconstruction`,
...), so that the lemmas about those functions hold of the class. Ghost fields record what has been
written: `FxtWriter.records`, `ThreadInfo.written` and `StackReconstructor.emitted`.

Names: a log entry is `Begin` or `Close`; the *trace* of a thread is its log followed by its pending
batch, read as pushes and pops; a *mark* is a log entry to be, at the instant of the event that caused
it. A *late* frame is one called at the current instant behind another call of the same batch, so that
its begin will lie later. `Roomy` says that no more than 32767 strings have been given an id, and an
event's `bound` is how many had been when a reader meets it.

## The main results

1. **End to end** (`Pipeline.Decode`): for every sequence of lines, filter and base time the bytes are
   whole records, the preamble first; a reader resolves every event in them to its thread, name and
   category; and for every pid and tid the events that resolve to them are, one for one, the log that
   the events of that pid and tid mean. That log is given by reference definitions which know nothing
   of batches, caches or other threads and share no step with the machine. Ends carry the name reference of
   the begin they close even after strings were evicted or slots reused. Every event up to the first
   eviction has its own name and category. Let the events that pass *need* the category, the display
   names and the thread labels of their logs. If these are at most 32767 distinct strings no event
   comes after an eviction, every event has its own name and category, and every thread and process is
   shown by its label; if they are more some event shows a wrong category. (Its name may still be
   right: `TraceNames.NameOutlivesCategory`.)
2. **The machine is the meaning** (`StackMeaning.LogIsMeaning`, `LogMeaning.LogIsLaidOut`): the
   streaming machine, which holds back one batch and looks at one event at a time, has exactly the
   stacks of a simple list semantics and writes exactly the log one gets by collecting all marks first
   and spreading every run of equal instants over the time up to the next.
3. **Time** (`SpanTiming.DurationsAndEnds`, `SpanTiming.SpansNest`, `Nesting.NestingExactly`): with times
   that never go back, no span ends before it begins and ends never go back. Spans also nest in time,
   wherever the run stops and however it then goes on without entering further contexts, if and only if
   no syscall or hardware interrupt comes while a late frame is open (given room on the 64-bit clock).
   Strictly later syscalls and interrupts are enough for that (`SpanTiming.StrictIsSettled`).
4. **Text, names and bytes**: any input printed item by item, branches, sampled stacks, misses,
   frequencies and decode errors in any order, parses to exactly those events
   (`TraceText.TextRoundTrip`); the display name of any symbol made of words, templates, braces,
   operators and parentheses is what stands before its last parameter list (`DisplayNames.DisplayName`);
   and every record has exactly the bytes the format asks for (`WireFormat.EncodedAsSpecified`).
5. **Ids** (`WriterRuns.AnyRunStrings`, `WriterRuns.IdsStable`, `StringBudget.EnoughIds`): over any
   run of the writer's public calls only id 1 is ever bound twice, and that happens exactly when the
   run asks for more than 32767 distinct strings.

## Model

| member | source | states |
|---|---|---|
| Pipeline.Decode | src/bin/tracey_mctraceface_main.cpp:67-91 | for any lines the bytes decode, the preamble's four records first; every event resolves; for every pid and tid the events shown are the reference log of the events with that pid and tid, nested by name reference; all categories, and all names and categories together, are as given if and only if the passed events need at most 32767 distinct strings, and then threads and processes are shown by their labels |
| Pipeline.FeedAll | src/bin/tracey_mctraceface_main.cpp:77-90 | driving parser, filter and reconstructor line by line equals processing the passed events of the batch parse of all groups |
| Pipeline.Offer | src/bin/tracey_mctraceface_main.cpp:79-82 | an event reaches the reconstructor exactly if the filter passes it, and both states advance by that event |
| Pipeline.NewTrace | src/bin/tracey_mctraceface_main.cpp:67-72 | after the preamble and the reconstructor's set-up the trace begins with magic number, provider, section and a nanosecond clock at the base time, holds no event, and only the category has been interned |
| Pipeline.RunBegun | src/lib/stack_reconstructor.cpp:208-238 | whatever is processed, the trace goes on beginning with the preamble |
| Pipeline.RunFaithful | src/lib/stack_reconstructor.cpp:208-238 | the trace of any event sequence is faithful whatever order `finish` visits the threads in; that the events need at most 32767 distinct strings is equivalent to no event coming after an eviction, to every category being as given, and to all names and categories being as given |
| Pipeline.WantedIs | src/lib/stack_reconstructor.cpp:167-206 | what the stream needed is the category and, thread by thread, the display names and labels of the events' logs |
| Pipeline.BoundsAreWanted | src/lib/fxt_writer.cpp:105-128 | some event comes after an eviction exactly if more distinct strings are wanted than there are ids |
| Pipeline.WantedDecides | src/lib/stack_reconstructor.cpp:167-206 | after any stream few enough strings are wanted exactly if every event shows the category, and then every thread with a log and its process are shown by their labels |
| TraceNames.EmitEntryCategory | src/lib/stack_reconstructor.cpp:179-206 | entry by entry, either ids have lasted and the category keeps id 1, or some event written does not show the category |
| TraceNames.InternHeld | src/lib/fxt_writer.cpp:97-130 | interning keeps it so that the category has id 1 while ids last and none afterwards, unless the category itself is asked for then |
| TraceNames.LostCategory | src/lib/fxt_writer.cpp:109-125 | once the category has lost its id a reader does not resolve id 1 to it |
| TraceNames.NameOutlivesCategory | src/lib/stack_reconstructor.cpp:179-206 | the new symbol that takes the category's id in a known thread is written with its own name and without the category |
| TraceNames.EnsureThreadShown | src/lib/fxt_writer.cpp:132-162 | while ids last every registered thread and named process is shown to the reader by its own label, and none already shown is lost |
| TraceNames.NameThreadShown | src/lib/fxt_writer.cpp:198-221 | while ids last a thread object shows the thread by its label, under its own process |
| TraceNames.LabelTells | src/lib/fxt_writer.cpp:156-160 | a label is its opening, the number in decimal without leading zeros, and a bracket |
| TraceNames.EmitEntryLabels | src/lib/stack_reconstructor.cpp:179-206 | writing an entry leaves every thread with an event shown by its label, while ids last |
| TraceStrings.EmitEntryKnown | src/lib/stack_reconstructor.cpp:167-206 | writing an entry asks the writer for exactly its display name and its thread's labels, whatever is cached or named already |
| TraceStrings.ProcessAllBudgeted | src/lib/stack_reconstructor.cpp:208-238 | over any events the writer is asked for just the strings of what was logged, while ids last the category and the labels are told as given, and afterwards some event shows another category |
| Pipeline.FinishedShare | src/lib/stack_reconstructor.cpp:350-357 | after `finish` a thread's share of the whole stream is the log its own events mean |
| Pipeline.RefsReplay | src/lib/stack_reconstructor.cpp:167-206 | a log balanced by symbol is balanced by name reference: every end carries its begin's reference |
| Pipeline.OrderedInputTimes | src/lib/stack_reconstructor.cpp:31-38 | input in time order gives every thread a well-timed log although the base is the first event of any thread, with nested spans if no entry meets a late frame |
| LogMeaning.SpreadIsPlaced | src/lib/stack_reconstructor.cpp:129-206 | the loop over a batch writes each call, return and untraced span at its even share of the time, as the offline layout has it |
| StackMeaning.StacksAreMeaning | src/lib/stack_reconstructor.cpp:240-348 | after any events the suspended and live stacks and their creation times are those of a batch-free list semantics |
| StackMeaning.LogIsMeaning | src/lib/stack_reconstructor.cpp:179-206 | replaying what was logged and what is pending gives exactly the frames that semantics names |
| StackMeaning.LeaveSeen | src/lib/stack_reconstructor.cpp:298-309 | a sysret or iret drops the context and puts the target on top of the suspended one, or opens an empty context now if there is none |
| StackMeaning.StartSeen | src/lib/stack_reconstructor.cpp:259-269 | a trace start takes off an `[untraced]` marker if that is on top, and then the target is on top |
| LogMeaning.LogIsLaidOut | src/lib/stack_reconstructor.cpp:115-165 | the log written batch by batch equals all marks laid out offline, run of equal instants by run |
| LogMeaning.AddHolds | src/lib/stack_reconstructor.cpp:115-127 | at any moment every run of marks but the last has been written and the last is the pending batch |
| StackDiscipline.ReachableConsistent | src/lib/stack_reconstructor.cpp:240-348 | in every reachable state log and batch replay without underflow or mismatch to the suspended stacks followed by the live one |
| StackDiscipline.FinishedLogBalanced | src/lib/stack_reconstructor.cpp:350-357 | the finished log of any events is balanced |
| StackDiscipline.SpreadOps | src/lib/stack_reconstructor.cpp:129-165 | flushing changes neither the order nor the kind of the batch's operations |
| Apportionment.FlushApportionment | src/lib/stack_reconstructor.cpp:129-165 | flush times are nondecreasing, within the batch's interval, and each is the sum of the even shares of the calls before it |
| Apportionment.EvenSharesFair | src/lib/stack_reconstructor.cpp:146-161 | the shares add up to the total, never shrink, and each is the quotient or one more |
| SpanTiming.DurationsAndEnds | src/lib/stack_reconstructor.cpp:56-94 | with times that never go back every span ends no sooner than it begins and ends never go back |
| SpanTiming.SpansNest | src/lib/stack_reconstructor.cpp:289-309 | if no context is entered while a late frame is open every span lies in time inside its enclosing span, inferred ones included |
| SpanTiming.StrictIsSettled | src/lib/stack_reconstructor.cpp:259-296 | strictly later syscalls and hardware interrupts never meet a late frame, even those that first resume the trace |
| SpanTiming.NoneLateDecided | src/lib/stack_reconstructor.cpp:129-165 | without a late frame the begin of every open frame is decided by now |
| Nesting.NestingExactly | src/lib/stack_reconstructor.cpp:75-94 | spans nest at every stop and in every continuation without further entries if and only if no context is entered while a late frame is open |
| Nesting.LateEntrySpoils | src/lib/stack_reconstructor.cpp:280-296 | after any run that enters a context while a late frame is open, a return makes an inferred span begin before the span around it |
| Nesting.EarlierInside | src/lib/stack_reconstructor.cpp:75-86 | in a balanced log a span that begins before one open around it spoils the nesting |
| SpanTiming.EnterTiming | src/lib/stack_reconstructor.cpp:289-296 | suspending keeps the timing invariant if every frame's begin time is decided by then |
| SpanTiming.TimedMeansNested | src/lib/stack_reconstructor.cpp:75-94 | the clock's reading of a balanced log implies nesting of every matched pair of spans |
| Timing.RetTiming | src/lib/stack_reconstructor.cpp:56-73 | returns, also those from untraced code that begin in the past, keep the timing invariant |
| Timing.FlushTiming | src/lib/stack_reconstructor.cpp:129-165 | a flush turns undecided begin times into known ones and keeps the timing invariant |
| TimingLimits.EqualTimesBreakNesting | src/lib/stack_reconstructor.cpp:289-296 | a run with equal times in which a span begins before the span around it |
| Contexts.ContextIsolation | src/lib/stack_reconstructor.cpp:289-309 | across a bracketed block the suspended stacks are untouched, and the saved stack is restored exactly if its top is the exit's target |
| Contexts.StepInactive | src/lib/stack_reconstructor.cpp:240-317 | what each event does to the suspended stacks: push on entry, drop on exit, nothing otherwise |
| Contexts.ExitRestores | src/lib/stack_reconstructor.cpp:298-309 | leaving restores the stack suspended last if and only if it has a frame and its top is the target |
| CallTree.CallTreeFidelity | src/lib/stack_reconstructor.cpp:240-317 | the finished log of a linearised call tree with syscalls and trace gaps is the tree's pre/post-order walk, no frame split by a gap |
| CallTree.GapSteps | src/lib/stack_reconstructor.cpp:249-269 | a trace end and start leave the stack as it was and log one `[untraced]` span |
| Samples.SampleReconciled | src/lib/stack_reconstructor.cpp:319-348 | a sample makes the live symbols its own with as few operations as any sequence that does |
| Samples.DistanceIsLeast | src/lib/stack_reconstructor.cpp:329-347 | no push/pop sequence between two stacks is shorter than their distance past the common prefix |
| Samples.LogPassesThroughSamples | src/lib/stack_reconstructor.cpp:319-348 | over samples only, replaying the finished log passes through every sample's stack in order |
| Samples.SampleTimesAscend | src/lib/stack_reconstructor.cpp:319-348 | the finished log of samples in time order is in time order |
| Reconstruction.ThreadAlone | src/lib/stack_reconstructor.cpp:23-38 | in any interleaving a thread's state is that of running its own events alone from the common base time |
| Reconstruction.FinishThreadsInv | src/lib/stack_reconstructor.cpp:350-357 | finishing distinct threads in any order finishes each exactly once and leaves the others alone |
| Reconstruction.ProcessEventInv | src/lib/stack_reconstructor.cpp:208-238 | after each event every thread's log is its share of the stream |
| Reconstruction.ProcessEventThread | src/lib/stack_reconstructor.cpp:208-238 | an event moves its own thread and no other, and sets the base time only if it is the first relevant one |
| StackReconstructor.StackReconstructor.constructor | src/lib/stack_reconstructor.cpp:10-13 | starts with no thread, no base time and the category interned |
| StackReconstructor.StackReconstructor.GetThread | src/lib/stack_reconstructor.cpp:23-29 | returns the thread's own info, a fresh one the first time, and leaves all others |
| StackReconstructor.StackReconstructor.MapTime | src/lib/stack_reconstructor.cpp:31-38 | the first time becomes the base; the result is the unsigned 64-bit difference |
| StackReconstructor.StackReconstructor.Call | src/lib/stack_reconstructor.cpp:40-54 | adds a call to the batch and a frame to the live stack |
| StackReconstructor.StackReconstructor.Ret | src/lib/stack_reconstructor.cpp:56-73 | closes the top frame, or reports a whole span since the context's creation if there is none |
| StackReconstructor.StackReconstructor.CheckCurrentSymbol | src/lib/stack_reconstructor.cpp:75-94 | infers a call on an empty stack and replaces a wrong top frame |
| StackReconstructor.StackReconstructor.ClearCallstack | src/lib/stack_reconstructor.cpp:96-102 | returns from every live frame |
| StackReconstructor.StackReconstructor.ClearAllCallstacks | src/lib/stack_reconstructor.cpp:104-113 | clears the live stack and then each suspended one, last suspended first |
| StackReconstructor.StackReconstructor.AddEvent | src/lib/stack_reconstructor.cpp:115-127 | flushes a batch of another time first, then adds to the batch |
| StackReconstructor.StackReconstructor.Flush | src/lib/stack_reconstructor.cpp:129-165 | writes the batch spread over the interval and nothing else, and empties it |
| StackReconstructor.StackReconstructor.WriteBatch | src/lib/stack_reconstructor.cpp:140-161 | the two loops write exactly the spread of the batch |
| StackReconstructor.StackReconstructor.CountTimeConsumers | src/lib/stack_reconstructor.cpp:140-144 | counts the calls of the batch |
| StackReconstructor.StackReconstructor.InternSymbol | src/lib/stack_reconstructor.cpp:167-177 | shortens and interns each raw symbol once and keeps the stream's invariant |
| StackReconstructor.StackReconstructor.WritePending | src/lib/stack_reconstructor.cpp:179-206 | writes one or two events with the thread's slot and the cached name id |
| StackReconstructor.StackReconstructor.ProcessEvent | src/lib/stack_reconstructor.cpp:208-238 | the whole state moves by the event, one thread only, and stays valid |
| StackReconstructor.StackReconstructor.ProcessBranch | src/lib/stack_reconstructor.cpp:240-317 | a branch by its trace state and kind |
| StackReconstructor.StackReconstructor.TakeBranch | src/lib/stack_reconstructor.cpp:274-316 | the ten branch kinds |
| StackReconstructor.StackReconstructor.StartTrace | src/lib/stack_reconstructor.cpp:259-269 | takes off the gap marker and checks the target |
| StackReconstructor.StackReconstructor.EnterContext | src/lib/stack_reconstructor.cpp:289-296 | suspends the live stack and opens one created now |
| StackReconstructor.StackReconstructor.LeaveContext | src/lib/stack_reconstructor.cpp:298-309 | clears the live stack and restores the one suspended last |
| StackReconstructor.StackReconstructor.ProcessStacktrace | src/lib/stack_reconstructor.cpp:319-348 | pops to the common prefix and pushes the rest of the sample |
| StackReconstructor.StackReconstructor.CountMatches | src/lib/stack_reconstructor.cpp:329-337 | the loop finds the length of the common prefix by symbol |
| StackReconstructor.StackReconstructor.PopTo | src/lib/stack_reconstructor.cpp:339-342 | pops down to the given depth |
| StackReconstructor.StackReconstructor.Finish | src/lib/stack_reconstructor.cpp:350-357 | flushes, clears and flushes every thread once, in some order it reports |
| EventStream.EmitEntry | src/lib/stack_reconstructor.cpp:179-206 | writing one entry keeps the stream's invariant: every event so far still shows its own thread, time and name |
| EventStream.InternSymbolInv | src/lib/stack_reconstructor.cpp:167-177 | every cached id resolves at the reader to its shortened symbol, unless it is 1 and ids have run out |
| EventStream.StreamAdvances | src/lib/stack_reconstructor.cpp:179-206 | what the reader knew stays true however the writer's tables move on |
| EventStream.EmitEntriesProject | src/lib/stack_reconstructor.cpp:179-206 | a thread's entries go to its own share of the stream and to no other |
| ShortenSymbol.CollapseIdempotent | src/lib/shorten_symbol.cpp:10-51 | collapsing templates twice is collapsing once, for every string |
| ShortenSymbol.TemplateCollapses | src/lib/shorten_symbol.cpp:28-47 | a matched argument list becomes `<...>` unless it follows `operator` |
| ShortenSymbol.PlainKept | src/lib/shorten_symbol.cpp:19-51 | a symbol without an opening bracket is unchanged |
| ShortenSymbol.CollapseTemplates | src/lib/shorten_symbol.cpp:19-51 | the loop computes the collapsed symbol |
| ShortenSymbol.StripParameters | src/lib/shorten_symbol.cpp:56-82 | the result ends right before the last opening parenthesis outside braces and brackets that does not follow `operator`, and is the whole symbol exactly if there is none |
| ShortenSymbol.ShortenSymbol | src/lib/shorten_symbol.cpp:86-90 | the display name is a prefix of the collapsed symbol with no template left to collapse |
| ShortenSymbol.ShortenCollapsed | src/lib/shorten_symbol.cpp:86-90 | collapsing a display name changes nothing, wherever its parameters were cut |
| DisplayNames.DisplayName | src/lib/shorten_symbol.cpp:10-90 | the display name of any symbol by its pieces: up to its last parameter list, template arguments as `<...>`, operators, braces and brackets kept |
| DisplayNames.OperatorKept | src/lib/shorten_symbol.cpp:28-35 | behind what ends in `operator` one or two `<` are copied and the scan goes on outside brackets |
| DisplayNames.OperatorNames | src/lib/shorten_symbol.cpp:69-71 | names that end in `operator<`, `operator<<` and `operator()` stay whole, with and without a parameter list |
| DisplayNames.FunctionName | src/lib/shorten_symbol.cpp:54-90 | a function's parameters are left out, and its scope's template arguments abridged |
| DisplayNames.CutIsOpen | src/lib/shorten_symbol.cpp:56-82 | in what is displayed the cut is at the last parenthesis that opens anything but the two of `operator()`, outside braces and brackets |
| FxtWriter.VectorSink.Write | src/lib/fxt_writer.cpp:306-313 | the sink only grows, by the bytes given |
| FxtWriter.FxtWriter.constructor | src/lib/fxt_writer.cpp:47-48 | starts with empty tables behind whatever the sink already holds |
| FxtWriter.FxtWriter.PadToWord | src/lib/fxt_writer.cpp:306-313 | adds zero bytes up to the next word boundary |
| FxtWriter.FxtWriter.WriteRecord | src/lib/fxt_writer.cpp:223-261 | the sink stays the encoding of the records, the new one last |
| FxtWriter.FxtWriter.FindVictim | src/lib/fxt_writer.cpp:118-122 | the scan finds an entry with the lowest id whatever the table's order |
| FxtWriter.FxtWriter.InternString | src/lib/fxt_writer.cpp:97-130 | the new tables, records and id are those of interning; the invariant holds |
| FxtWriter.FxtWriter.VacateSlot | src/lib/fxt_writer.cpp:144-150 | the scan removes the one holder of the slot, if any |
| FxtWriter.FxtWriter.TakeSlot | src/lib/fxt_writer.cpp:139-153 | a new thread gets the next slot, whose holder loses it, and its record is emitted |
| FxtWriter.FxtWriter.EnsureThread | src/lib/fxt_writer.cpp:132-162 | the thread holds a slot the reader knows as it; names are emitted once per process and per assignment |
| FxtWriter.FxtWriter.WriteProcessName | src/lib/fxt_writer.cpp:184-196 | interns the name and emits the process object |
| FxtWriter.FxtWriter.WriteThreadName | src/lib/fxt_writer.cpp:198-221 | interns the name and the argument's name and emits the thread object |
| FxtWriter.FxtWriter.EmitStringRecord | src/lib/fxt_writer.cpp:223-249 | emits the string, truncated if too long |
| FxtWriter.FxtWriter.EmitThreadRecord | src/lib/fxt_writer.cpp:251-261 | emits the slot's thread |
| FxtWriter.FxtWriter.WriteEventById | src/lib/fxt_writer.cpp:263-280 | emits the event with the given references, its type cut to four bits |
| FxtWriter.FxtWriter.EmitEvent | src/lib/fxt_writer.cpp:282-304 | thread, category and name are assigned before the event is emitted, in that order |
| FxtWriter.FxtWriter.WriteDurationBegin | src/lib/fxt_writer.cpp:164-172 | a begin event by names |
| FxtWriter.FxtWriter.WriteDurationEnd | src/lib/fxt_writer.cpp:174-182 | an end event by names |
| FxtWriter.FxtWriter.WritePreamble | src/lib/fxt_writer.cpp:50-95 | emits the four opening records and leaves the tables alone |
| WriterTables.Truncate | src/lib/fxt_writer.cpp:228-234 | a string is kept exactly if it has at most 31999 bytes; a longer one keeps its first 31984 and becomes 31998 bytes long |
| WriterTables.VictimHasIdOne | src/lib/fxt_writer.cpp:118-124 | the string that loses its id always is the one with id 1 |
| WriterTables.InternInv | src/lib/fxt_writer.cpp:97-130 | the id interned resolves at the reader to the truncated string, and no other id changes unless one is evicted |
| WriterTables.EnsureThreadInv | src/lib/fxt_writer.cpp:132-162 | the slot returned resolves at the reader to the thread, despite wrap-around and reuse |
| WriterTables.SlotTwice | src/lib/fxt_writer.cpp:139-152 | two new threads in a row get the same slot, and the first loses it at once, exactly if the slot counter is at 255; it is slot 1 |
| WriterTables.ThreadNameResolves | src/lib/fxt_writer.cpp:198-221 | the thread's name resolves unless interning "process" has just taken id 1 from it |
| WriterTables.WriteEventInv | src/lib/fxt_writer.cpp:263-280 | the reader adds exactly one event, with the references resolved in its present tables |
| WriterRuns.AnyRunDecodes | src/lib/fxt_writer.cpp:184-313 | after any public calls the bytes are whole words that decode to the records emitted, every field in its width, no record over 4001 words |
| WriterRuns.AnyRunStrings | src/lib/fxt_writer.cpp:97-130 | after any calls the table is a bijection onto the ids given out, the reader's is its truncated inverse, and only id 1 was bound twice |
| WriterRuns.IdsStable | src/lib/fxt_writer.cpp:105-128 | what an id resolves to never changes, except id 1 after ids have run out |
| WriterRuns.FullTableRebindsOne | src/lib/fxt_writer.cpp:109-125 | with a full table each new string takes id 1 from exactly one other and changes nothing else |
| WriterRuns.AnyRunThreads | src/lib/fxt_writer.cpp:132-162 | after any calls the reader's slots are the inverse of the live ones, which lie in 1..255 and are at most 255 |
| WriterRuns.DurationResolves | src/lib/fxt_writer.cpp:282-304 | an event by names resolves to its thread and name, and to its category unless the name has just taken id 1 from it |
| StringBudget.EnoughIds | src/lib/fxt_writer.cpp:105-125 | ids suffice for a run if and only if it asks for at most 32767 distinct non-empty strings, its labels included |
| StringBudget.BindCounted | src/lib/fxt_writer.cpp:106-128 | a new string counts once and evicts only when more distinct strings than ids have been asked for |
| WireFormat.EncodedAsSpecified | src/include/tracey_mctraceface/fxt.bes.xml:14-151 | every record is its header word, lowest byte first, and the words or text that follow, with zero padding, all spelled out |
| WireFormat.HeaderIs | src/include/tracey_mctraceface/fxt.bes.xml:14-94 | the header word of each kind of record as a sum of its fields times powers of two |
| WireFormat.ArgIs | src/include/tracey_mctraceface/fxt.bes.xml:144-151 | the word of a koid argument as such a sum |
| WireFormat.LittleEndianByte | src/include/tracey_mctraceface/fxt.bes.xml:8 | each byte of a number is that digit of it to the base 256, the lowest first |
| Wire.UnpackPack | src/include/tracey_mctraceface/fxt.bes.xml:14-151 | fields that fit their widths come back from a packed word |
| Wire.LittleEndianRoundTrip | src/include/tracey_mctraceface/fxt.bes.xml:14-151 | a number that fits comes back from its bytes |
| Records.FieldsFit | src/include/tracey_mctraceface/fxt.bes.xml:14-94 | every header field of a record the writer can emit fits its width |
| Records.DecodeEncode | src/include/tracey_mctraceface/fxt.bes.xml:14-151 | each kind of record comes back from its own bytes |
| Records.BytesRoundTrip | src/lib/fxt_writer.cpp:50-95 | walking the bytes by the stated sizes gives back the records written |
| PerfScriptParser.PerfScriptParser.FeedLine | src/lib/perf_script_parser.cpp:460-474 | a blank line or a line that is no continuation completes the group before it |
| PerfScriptParser.PerfScriptParser.Finish | src/lib/perf_script_parser.cpp:476-479 | completes the last group |
| PerfScriptParser.PerfScriptParser.FlushAccumulated | src/lib/perf_script_parser.cpp:451-458 | parses and drops the accumulated lines |
| PerfScriptParser.PerfScriptParser.DoParseGroup | src/lib/perf_script_parser.cpp:239-449 | a group by its header line and event name |
| PerfScriptParser.PerfScriptParser.DoParseHeader | src/lib/perf_script_parser.cpp:249-294 | ids, time stamp, event name and rest of a header line |
| PerfScriptParser.PerfScriptParser.DoParseBranch | src/lib/perf_script_parser.cpp:296-396 | kind, trace state, flag and locations of a branch line |
| PerfScriptParser.PerfScriptParser.DoParseFrames | src/lib/perf_script_parser.cpp:413-426 | the frames of a sample, lines without an address skipped |
| PerfScriptParser.PerfScriptParser.FindAddress | src/lib/perf_script_parser.cpp:338-355 | the scan finds the first run of lower-case hex between spaces |
| PerfScriptParser.PerfScriptParser.TrimSpaces | src/lib/perf_script_parser.cpp:359-368 | drops trailing spaces |
| PerfScriptParser.StreamingEqualsBatch | src/lib/perf_script_parser.cpp:451-479 | feeding line by line yields, in order, the parses of the groups of the whole input |
| PerfScriptParser.GroupsPartition | src/lib/perf_script_parser.cpp:122-125 | the groups hold every non-blank line once, each a first line followed by continuations |
| TraceText.TextRoundTrip | src/lib/perf_script_parser.cpp:239-479 | any sequence of printed items, blank lines among them or not, parses to exactly their events in order |
| SampleLines.SampleRoundTrip | src/lib/perf_script_parser.cpp:413-429 | a printed stack, innermost frame first, gives back ids, time and stack, outermost first, if and only if its frames are plain, whatever lines without an address are among them |
| SampleLines.MissRoundTrip | src/lib/perf_script_parser.cpp:431-449 | a sampled miss gives back its first frame and kind if and only if that frame is plain; alone its first line is no event |
| SampleLines.FrequencyRoundTrip | src/lib/perf_script_parser.cpp:398-411 | a frequency line gives back its frequency, and a synchronisation line is no event |
| ErrorLine.ErrorRoundTrip | src/lib/perf_script_parser.cpp:183-236 | a printed decode error gives back signed ids, time, address and message if and only if it has a time or its message does not seem to mention one |
| ErrorLine.PartPassed | src/lib/perf_script_parser.cpp:193-233 | searching for a field passes a part that does not hold the field's name |
| HeaderLine.HeaderBack | src/lib/perf_script_parser.cpp:249-294 | a printed first line gives back ids, time, event name and rest; an id over 32 bits is read as 0 |
| HeaderLine.OtherEvent | src/lib/perf_script_parser.cpp:296-449 | an event of another name is dropped, and so is a branch without an arrow |
| HeaderLine.NoHeader | src/lib/perf_script_parser.cpp:245-258 | a first line that begins with neither a number nor the words of an error is dropped |
| HeaderLine.NoSlash | src/lib/perf_script_parser.cpp:254-258 | a first line without a slash behind its first number is dropped |
| HeaderLine.NoStamp | src/lib/perf_script_parser.cpp:266-274 | so is one without a point behind the seconds or a colon behind the fraction |
| HeaderLine.FractionBack | src/lib/perf_script_parser.cpp:129-144 | any seconds and any number of fraction digits: fewer than nine are padded, more are cut, and the sum is modulo 2^64 |
| HeaderLine.HexRead | src/lib/perf_script_parser.cpp:13-19 | a hex number of either case, prefixed or not, is read to the first other character, and as 0 if it does not fit 64 bits |
| BranchLine.BranchRoundTrip | src/lib/perf_script_parser.cpp:239-396 | a printed branch line whose parts can be told apart, conditional jumps and locations without a symbol included, gives back ids, time, kind, trace state, flag and both locations if and only if its parts are plain, no arrow in the source text included |
| BranchLine.EarlyArrowSpoils | src/lib/perf_script_parser.cpp:301-307 | with ` => ` within the source text the line never parses to its branch |
| BranchLine.LocationBack | src/lib/perf_script_parser.cpp:146-181 | a printed location, with a symbol or without, comes back exactly if its symbol begins with no blank and its object's name holds no `+0x` |
| BranchLine.FlagFound | src/lib/perf_script_parser.cpp:316-320 | the flag read is the flag printed exactly if it was printed or the source text holds no `(x)` |
| BranchLine.KindFieldBack | src/lib/perf_script_parser.cpp:87-120 | kind and trace state come back from their column |
| BranchLine.StartJump | src/lib/perf_script_parser.cpp:87-98 | at the start of a trace anything that begins with `jmp` is a jump |
| BranchLine.StartAndEnd | src/lib/perf_script_parser.cpp:87-120 | a trace that starts and ends at once keeps its kind and changes no state |
| ErrorLine.SignedBack | src/lib/perf_script_parser.cpp:28-33 | a signed number is read back, and as 0 if it does not fit 32 bits |
| BranchLine.SymbolBack | src/lib/perf_script_parser.cpp:146-170 | symbol and signed 32-bit offset come back, whatever `+0x` the symbol itself holds |
| HeaderLine.TimeBack | src/lib/perf_script_parser.cpp:129-144 | every 64-bit time comes back from seconds and nine digits |
| BranchLine.AddressFound | src/lib/perf_script_parser.cpp:338-355 | the address scan is not misled by any kind column |
| TextSearch.FindFrom | src/lib/perf_script_parser.cpp:303-304 | the first occurrence, or none at all |
| TextSearch.FindLast | src/lib/perf_script_parser.cpp:150-151 | the last occurrence, or none at all |
| TextSearch.ConsumeDigits | src/lib/perf_script_parser.cpp:43-51 | the longest leading run of digits and the rest |
| TextSearch.ConsumeHex | src/lib/perf_script_parser.cpp:54-64 | the longest leading run of hex digits and the rest |
| TraceFilter.TraceFilter.ShouldPass | src/lib/trace_filter.cpp:13-49 | the filter's next state and verdict |
| TraceFilter.StepByMarks | src/lib/trace_filter.cpp:13-77 | what an event does to the filter in each mode, by whether it is a branch whose source or destination symbol begins, character by character, with the marker |
| TraceFilter.BlocksMarked | src/lib/trace_filter.cpp:22-46 | every block opens with a start marker and has no end marker before its last event, and outside the blocks there is no start marker |
| TraceFilter.TraceFilter.SliceCount | src/lib/trace_filter.cpp:51-54 | reports the slices counted so far |
| TraceFilter.TraceFilter.StartSymbolMissing | src/lib/trace_filter.cpp:56-59 | reports whether a start symbol is set that nothing has matched |
| TraceFilter.PassedSlices | src/lib/trace_filter.cpp:7-77 | with a start symbol exactly the events of the marked blocks pass; blocks open with a start marker, close with the first end marker after it, are apart, at most one in single mode; the count is that of closed ones, and the start symbol is missing exactly if there is none |
| TraceFilter.PassedFromStart | src/lib/trace_filter.cpp:31-42 | without a start symbol, in single mode, everything up to the first end mark passes |
| TraceFilter.PassedAlways | src/lib/trace_filter.cpp:34-36 | without a start symbol, with several slices, everything passes and end marks are counted |

## Where the code and its documentation differ

The model follows the code in each case.

- README.md:249-250 promises least-recently-used eviction and fxt_writer.cpp:110 speaks of the least
  recently inserted string; the code evicts the lowest id, which on a full table is always id 1 (`WriterTables.VictimHasIdOne`).
- A truncated string is 31984 + 14 = 31998 bytes long, one less than the bound (fxt_writer.cpp:231-232).
- `next_thread_slot_` wraps at 256 but slots at 255, so slot 1 is handed out twice in a row at the
  wrap (`WriterTables.SlotTwice`).
- trace_filter.cpp:31-42: without a start symbol and with several slices an end mark is counted but
  recording goes on.

## Left out

- Process handling, perf capabilities and the driver, the trace server, logging, the command line's option parsing: operating system, network and user interface.
- file_sink and compressed_sink: the sink is `VectorSink`, an append-only byte sequence that never throws.
- Warnings on stderr and `string_id_warning_issued_`, the event count and the exit code: they do not reach the trace.
- Hash tables: `unordered_map` iteration is modelled as any order, which the eviction scans, the slot scan and `finish` are proved not to depend on.
- Counter widths: `time_consumers`, `shares_consumed` and `slice_count_` are unbounded here, `int` in C++.
- Class methods take pid and tid as 64-bit words where `StackReconstructor` has 32-bit ones; events carry 32-bit ids.
- `CallInfo` beyond the location and the from-untraced flag, and the `count` of counter samples: nothing reads them.
- The generated field setters of fxt.bes.xml are taken to store the low bits of a value and leave padding zero; the argument records other than the koid argument are never emitted.
- Global order of begin times: the code does not provide it (`TimingLimits.EqualTimesBreakNesting`).
- The category once ids have run out, and with it some names and labels: the code does not keep them. `Pipeline.RunFaithful` gives the exact condition for the category, and for names and category together, and `StringBudget.EnoughIds` for any calls of the writer; which single names and labels survive is not characterised.
- Pipeline.Decode: says nothing about how the events of different threads interleave in the file.
- Nesting.NestingExactly: the half that needs a late frame to be harmful assumes a nanosecond for every pending call before the 64-bit clock ends; the other half, `SpanTiming.SpansNest`, does not.
- BranchLine.BranchRoundTrip: lines with nothing but blanks, or no blank at all, before the source address, and those with ` => ` in the source text and no symbol at the target, are not characterised.
- ShortenSymbol.StripParameters: the cut is at one parenthesis, which is not always where a whole parameter list begins; `DisplayNames.DisplayName` does not cover symbols with unmatched brackets or with braces inside braces.
