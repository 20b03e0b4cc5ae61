# ZGC log parser: line state machine

This project models the core of gctoolkit's `ZGCParser`. The parser reads a
ZGC log line by line. It skips memory-table header lines, tries its parse rules
in order and hands the first match to that rule's handler. It logs a line
that matches no rule or whose handler throws. The handlers route the captured
fields of each line into the accumulator (`ZGCForwardReference`) of the
cycle the line belongs to. There are three accumulator slots: FULL, young
(minor and major) and old. A cycle's end line turns its accumulator into one
published `ZGCCollection` event.

The state of the parser:
- the three slots;
- the map from cycle id to GC cause, which links a generational cycle-start line
  to its generation-start lines;
- the heap-capacity scratch triple, filled by the capacity lines and zeroed
  by every memory-summary line that does not throw (outside generational mode
  a memory-summary line with no FULL cycle throws before the reset);
- the generation-stats flag, which sends size rows either to the legacy
  mark/relocate builder or to the generation-used summary;
- the per-cycle memory-pool summary builder;
- two sinks: published events and missed (logged) lines.

Files:
- `zgc_types.dfy` (module `ZGCTypes`): the records of events and summaries,
  the decoded captures of each parse rule (`Trace`), the rule table in
  registration order, a log line with its match oracle, and the parser state
  as a value.
- `zgc_model.dfy` (module `ZGCModel`): one transition function per handler
  (new state, and whether it threw), the dispatch of `process`, and the run
  of a whole log.
- `zgc_parser.dfy`:
  - Module `ZGCForwardReferences` holds the classes
    `MemoryPoolSummaryBuilder` (four arrays of three cells) and
    `ForwardReference` (setter-updated fields).
  - Module `ZGCParserClasses` holds the class `ZGCParser`. It has an array of
    three references, a cause map, a capacity array, the flag and the sinks.
  - Each method is proved equal, on the abstraction `Abs()`, to the
    `ZGCModel` function it implements. Most share its name. The exceptions:
    `PageSummary` implements `PageSummaryLine`, `SetSelected` implements
    `WriteSelected`, `SetOn` implements `Write`, `SetForPhase` implements
    `WriteFor`, and `EndOfFile` and `MarkGenHeapStats` implement their cases
    of `HandleCycleLine`.
- `zgc_properties.dfy` (module `ZGCProperties`): what the parser promises,
  proved about the model.

## Model

| member | source | states |
|---|---|---|
| ZGCModel.SlotOf | parser/src/main/java/com/microsoft/gctoolkit/parser/ZGCParser.java:162-175 | every phase maps to one of the three slots |
| ZGCProperties.SlotRoundTrip | parser/src/main/java/com/microsoft/gctoolkit/parser/ZGCParser.java:162-193 | FULL, the two young phases and MAJOR_OLD use different slots, and the two young phases share one; after installing an accumulator, every phase of that slot reads it back; the other slots and the rest of the state are unchanged |
| ZGCParserClasses.ZGCParser.GetForwardRefForPhase | parser/src/main/java/com/microsoft/gctoolkit/parser/ZGCParser.java:162-175 | returns the reference in the phase's slot; an undecodable phase is the throwing case |
| ZGCParserClasses.ZGCParser.SetForwardRefForPhase | parser/src/main/java/com/microsoft/gctoolkit/parser/ZGCParser.java:177-193 | the phase's slot now holds the new reference; nothing else changes and the parser stays valid |
| ZGCParserClasses.ZGCParser.constructor | parser/src/main/java/com/microsoft/gctoolkit/parser/ZGCParser.java:69-111 | a new parser has empty slots, an empty map, a zero scratch triple, the flag off and empty sinks |
| ZGCProperties.InitialInv | parser/src/main/java/com/microsoft/gctoolkit/parser/ZGCParser.java:69-76 | the initial state has empty slots and sinks, and it satisfies the slot invariant |
| ZGCProperties.CycleStartEffect | parser/src/main/java/com/microsoft/gctoolkit/parser/ZGCParser.java:195-208 | a FULL cycle start installs a fresh accumulator with its id and cause in the FULL slot and leaves the map alone; any other cycle start records its cause under its id, keeps the other ids and leaves the slots alone; it never throws |
| ZGCProperties.GenerationStartEffect | parser/src/main/java/com/microsoft/gctoolkit/parser/ZGCParser.java:210-223 | outside generational mode nothing changes; otherwise the new state is the old one with only the phase's slot replaced by a fresh accumulator (empty builder and data) started at the clock, with the line's id, cause map[id] or UNKNOWN and the cycle type from the phase; the cause map is kept; an undecodable phase throws and changes nothing |
| ZGCParserClasses.ZGCParser.CycleStart | parser/src/main/java/com/microsoft/gctoolkit/parser/ZGCParser.java:195-208 | the parser's new state is the one the model's CycleStart computes |
| ZGCParserClasses.ZGCParser.GenerationStart | parser/src/main/java/com/microsoft/gctoolkit/parser/ZGCParser.java:210-223 | the parser's new state and throw flag are the ones the model's GenerationStart computes |
| ZGCModel.GetGCEvent | parser/src/main/java/com/microsoft/gctoolkit/parser/ZGCParser.java:707-777 | the duration is the explicit one when set, otherwise end time minus start time; the event is a FULL-type full collection exactly for FULL, a MAJOR_OLD-type old collection exactly for MAJOR_OLD, and a young collection exactly for MINOR_YOUNG and MAJOR_YOUNG; the id, cause, cycle type, phase, start time and all collected fields are the accumulator's |
| ZGCForwardReferences.ForwardReference.GetGCEvent | parser/src/main/java/com/microsoft/gctoolkit/parser/ZGCParser.java:707-777 | the object's event equals the model's event for the reference's value |
| ZGCForwardReferences.ForwardReference.constructor | parser/src/main/java/com/microsoft/gctoolkit/parser/ZGCParser.java:698-705 | a new reference holds the given identity, no collected fields and an empty builder |
| ZGCForwardReferences.ForwardReference.Set | parser/src/main/java/com/microsoft/gctoolkit/parser/ZGCParser.java:779-1040 | each setter changes only the field it names, as the model's Apply does |
| ZGCForwardReferences.ForwardReference.SetGenerationUsedSummary | parser/src/main/java/com/microsoft/gctoolkit/parser/ZGCParser.java:981-992 | a FULL phase leaves the data unchanged; any other phase sets the generation-used summary |
| ZGCForwardReferences.ForwardReference.AddPageAgeSummary | parser/src/main/java/com/microsoft/gctoolkit/parser/ZGCParser.java:1034-1040 | appends the row to the age table, creating it on first use |
| ZGCForwardReferences.ForwardReference.SetGcDuration | parser/src/main/java/com/microsoft/gctoolkit/parser/ZGCParser.java:977-979 | records the explicit duration and nothing else |
| ZGCProperties.AgeTableAccumulates | parser/src/main/java/com/microsoft/gctoolkit/parser/ZGCParser.java:320-336 | after any number of age-table rows the list is the old list (empty if absent) followed by the rows in order, and nothing else changes |
| ZGCForwardReferences.MemoryPoolSummaryBuilder.constructor | parser/src/main/java/com/microsoft/gctoolkit/parser/ZGCParser.java:582-586 | the four arrays start at zero |
| ZGCForwardReferences.MemoryPoolSummaryBuilder.SetMarkStart | parser/src/main/java/com/microsoft/gctoolkit/parser/ZGCParser.java:588-590 | only the named cell of the mark-start array changes |
| ZGCForwardReferences.MemoryPoolSummaryBuilder.SetMarkEnd | parser/src/main/java/com/microsoft/gctoolkit/parser/ZGCParser.java:592-594 | only the named cell of the mark-end array changes |
| ZGCForwardReferences.MemoryPoolSummaryBuilder.SetRelocateStart | parser/src/main/java/com/microsoft/gctoolkit/parser/ZGCParser.java:596-598 | only the named cell of the relocate-start array changes |
| ZGCForwardReferences.MemoryPoolSummaryBuilder.SetRelocateEnd | parser/src/main/java/com/microsoft/gctoolkit/parser/ZGCParser.java:600-602 | only the named cell of the relocate-end array changes |
| ZGCForwardReferences.MemoryPoolSummaryBuilder.BuildMarkStart | parser/src/main/java/com/microsoft/gctoolkit/parser/ZGCParser.java:604-606 | the summary is the mark-start array's three cells (capacity, free, used) |
| ZGCForwardReferences.MemoryPoolSummaryBuilder.BuildMarkEnd | parser/src/main/java/com/microsoft/gctoolkit/parser/ZGCParser.java:608-610 | the summary is the mark-end array's three cells |
| ZGCForwardReferences.MemoryPoolSummaryBuilder.BuildRelocateStart | parser/src/main/java/com/microsoft/gctoolkit/parser/ZGCParser.java:612-614 | the summary is the relocate-start array's three cells |
| ZGCForwardReferences.MemoryPoolSummaryBuilder.BuildRelocateEnd | parser/src/main/java/com/microsoft/gctoolkit/parser/ZGCParser.java:616-618 | the summary is the relocate-end array's three cells |
| ZGCProperties.CapacityRows | parser/src/main/java/com/microsoft/gctoolkit/parser/ZGCParser.java:424-435 | "Min Capacity" and "Max Capacity" fill scratch cells 0 and 1 without touching any accumulator; "Soft Max Capacity" fills cell 2 and sets the accumulator's capacity summary to the three cells |
| ZGCProperties.CapacityRowEffects | parser/src/main/java/com/microsoft/gctoolkit/parser/ZGCParser.java:424-435 | the whole new state for each row on a decoded phase: "Min Capacity" and "Max Capacity" change only their scratch cell; "Soft Max Capacity" writes cell 2 first, so on an empty slot it throws with cell 2 already written, and on a held slot it stores in that slot's data a capacity summary of (old cell 0, old cell 1, the line's value), a stale triple when the min and max rows did not come first |
| ZGCProperties.CapacityUndecodable | parser/src/main/java/com/microsoft/gctoolkit/parser/ZGCParser.java:424-425 | a capacity row whose phase cannot be decoded throws and changes nothing, whatever its name |
| ZGCProperties.CapacityOtherName | parser/src/main/java/com/microsoft/gctoolkit/parser/ZGCParser.java:424-435 | any other capacity name changes nothing; an undecodable phase throws before any write |
| ZGCParserClasses.ZGCParser.Capacity | parser/src/main/java/com/microsoft/gctoolkit/parser/ZGCParser.java:424-435 | the parser's new state and throw flag are the model's Capacity |
| ZGCParserClasses.ZGCParser.CaptureAtIndex | parser/src/main/java/com/microsoft/gctoolkit/parser/ZGCParser.java:437-442 | the row's four values go to the given column of the four builder arrays |
| ZGCProperties.LegacySizeRows | parser/src/main/java/com/microsoft/gctoolkit/parser/ZGCParser.java:444-479 | outside generation-stats mode the "Capacity", "Free" and "Used" rows fill columns 0, 1 and 2; after "Used" the mark-start, mark-end, relocate-start and relocate-end summaries are the columns of the three rows |
| ZGCProperties.SizeRowEffects | parser/src/main/java/com/microsoft/gctoolkit/parser/ZGCParser.java:444-479 | outside generation-stats mode a known row on an empty slot throws and changes nothing; otherwise the new state is the old one with only that slot replaced: same identity and duration, each of the four builder arrays with the row's value in the name's column, data unchanged for "Capacity" and "Free", and for "Used" the four summaries built from the new columns |
| ZGCProperties.SizeEntryOtherName | parser/src/main/java/com/microsoft/gctoolkit/parser/ZGCParser.java:462-478 | outside generation-stats mode an unknown size row changes nothing |
| ZGCProperties.GenerationStatsSizeRow | parser/src/main/java/com/microsoft/gctoolkit/parser/ZGCParser.java:444-460 | in generation-stats mode a size row never touches the builder and never throws on a held slot; "Used" gives the old state with only that slot's generation-used summary set (the old state itself for FULL); any other name only counts as not yet implemented; the flag stays set in every case |
| ZGCParserClasses.ZGCParser.SizeEntry | parser/src/main/java/com/microsoft/gctoolkit/parser/ZGCParser.java:444-479 | the parser's new state and throw flag are the model's SizeEntry |
| ZGCParserClasses.ZGCParser.OccupancyEntry | parser/src/main/java/com/microsoft/gctoolkit/parser/ZGCParser.java:481-501 | the parser's new state and throw flag are the model's OccupancyEntry |
| ZGCParserClasses.ZGCParser.ReclaimedPromoted | parser/src/main/java/com/microsoft/gctoolkit/parser/ZGCParser.java:503-521 | the parser's new state and throw flag are the model's ReclaimedPromoted |
| ZGCParserClasses.ZGCParser.PageSummary | parser/src/main/java/com/microsoft/gctoolkit/parser/ZGCParser.java:295-312 | the parser's new state and throw flag are the model's PageSummaryLine |
| ZGCParserClasses.ZGCParser.ReferenceProcessingGen | parser/src/main/java/com/microsoft/gctoolkit/parser/ZGCParser.java:409-422 | the parser's new state and throw flag are the model's ReferenceProcessingGen |
| ZGCProperties.OccupancyRowNames | parser/src/main/java/com/microsoft/gctoolkit/parser/ZGCParser.java:481-501 | "Live", "Allocated" and "Garbage" select the live, allocated and garbage summaries; any other name selects no setter |
| ZGCProperties.ReclaimedPromotedRowNames | parser/src/main/java/com/microsoft/gctoolkit/parser/ZGCParser.java:503-521 | "Reclaimed" and "Promoted" select the reclaim and promoted summaries; any other name selects no setter |
| ZGCProperties.PageRowNames | parser/src/main/java/com/microsoft/gctoolkit/parser/ZGCParser.java:295-312 | "Small", "Medium" and "Large" select the three page summaries; any other name selects no setter |
| ZGCProperties.ReferenceRowNames | parser/src/main/java/com/microsoft/gctoolkit/parser/ZGCParser.java:409-422 | "Soft", "Weak", "Final" and "Phantom" select the four reference summaries; any other name selects no setter |
| ZGCProperties.WriteSelectedEffect | parser/src/main/java/com/microsoft/gctoolkit/parser/ZGCParser.java:481-501 | a known name calls its setter on the phase's reference; an unknown name never dereferences the slot and is reported (occupancy, concurrent) or ignored (the other tables); an undecodable phase throws |
| ZGCProperties.WriteForEffect | parser/src/main/java/com/microsoft/gctoolkit/parser/ZGCParser.java:314-403 | a one-setter line throws exactly when its phase is undecodable or its slot is empty, and then changes nothing; otherwise it rewrites only that slot's data |
| ZGCProperties.CompactedClearsFlag | parser/src/main/java/com/microsoft/gctoolkit/parser/ZGCParser.java:523-533 | a decodable phase clears the flag even when its slot is empty and it then throws; an undecodable phase throws before the flag is touched and changes nothing; an empty slot throws; otherwise the new state is the flag cleared and that slot's data holding the compacted summary of the line, nothing else changed |
| ZGCProperties.GenHeapStatsSwitch | parser/src/main/java/com/microsoft/gctoolkit/parser/ZGCParser.java:122-124 | only the generation-stats header sets the flag, and it always does; compacted and generationEnd lines with a decoded phase clear it; no other line clears it, and every line but these three leaves it as it was |
| ZGCParserClasses.ZGCParser.MarkGenHeapStats | parser/src/main/java/com/microsoft/gctoolkit/parser/ZGCParser.java:122-124 | sets the flag and nothing else |
| ZGCParserClasses.ZGCParser.Compacted | parser/src/main/java/com/microsoft/gctoolkit/parser/ZGCParser.java:523-533 | the parser's new state and throw flag are the model's Compacted |
| ZGCProperties.MarkStartPause | parser/src/main/java/com/microsoft/gctoolkit/parser/ZGCParser.java:226-244 | on a held slot "Mark Start" gives the old state with only that slot's mark-start pause timing set to (clock - duration, duration) and the not-yet-implemented count raised by one; "Mark Start (Major)" gives the same without the count; on an empty slot both throw and change nothing |
| ZGCProperties.PauseOtherName | parser/src/main/java/com/microsoft/gctoolkit/parser/ZGCParser.java:226-244 | an unknown pause name changes nothing but the not-yet-implemented count, even with an empty slot; an undecodable phase throws |
| ZGCProperties.PauseNamedEffect | parser/src/main/java/com/microsoft/gctoolkit/parser/ZGCParser.java:226-244 | "Mark End" and "Relocate Start" throw and change nothing on an empty slot; otherwise the new state is the old one with only that slot's timing for the named pause set to (clock - duration, duration) |
| ZGCParserClasses.ZGCParser.PausePhase | parser/src/main/java/com/microsoft/gctoolkit/parser/ZGCParser.java:226-244 | the parser's new state and throw flag are the model's PausePhase |
| ZGCProperties.ConcurrentPhaseEffect | parser/src/main/java/com/microsoft/gctoolkit/parser/ZGCParser.java:246-292 | a known concurrent phase name on a held slot gives the old state with only that slot's timing for its sub-phase set to (clock - duration, duration); an empty slot throws and changes nothing; an unknown name changes only the not-yet-implemented count |
| ZGCProperties.NonStrongAlias | parser/src/main/java/com/microsoft/gctoolkit/parser/ZGCParser.java:259-261 | "Process Non-Strong" and "Process Non-Strong References" have the same effect |
| ZGCParserClasses.ZGCParser.ConcurrentPhase | parser/src/main/java/com/microsoft/gctoolkit/parser/ZGCParser.java:246-292 | the parser's new state and throw flag are the model's ConcurrentPhase |
| ZGCProperties.GenerationalCycle | parser/src/main/java/com/microsoft/gctoolkit/parser/ZGCParser.java:535-549 | a cycle start, a generation start at c1 and a generation end at c2 publish exactly one event; it carries that cause, id and phase, start time c1, the end line's sizes, and duration equal to the explicit value or c2 - c1; the flag is then off |
| ZGCProperties.GenerationEndKeepsSlot | parser/src/main/java/com/microsoft/gctoolkit/parser/ZGCParser.java:535-549 | generationEnd publishes one event and leaves the finished accumulator in its slot |
| ZGCParserClasses.ZGCParser.GenerationEnd | parser/src/main/java/com/microsoft/gctoolkit/parser/ZGCParser.java:535-549 | the parser's new state and throw flag are the model's GenerationEnd |
| ZGCProperties.MemorySummaryGenerational | parser/src/main/java/com/microsoft/gctoolkit/parser/ZGCParser.java:551-566 | in generational mode the id leaves the cause map and the other ids stay; nothing is published; the scratch triple is zeroed |
| ZGCProperties.MemorySummaryLegacy | parser/src/main/java/com/microsoft/gctoolkit/parser/ZGCParser.java:551-566 | outside generational mode an empty FULL slot throws and changes nothing, the reset included; otherwise exactly the FULL accumulator's event, finished with the line's sizes and no explicit duration, is published at the clock, with the accumulator's cause, start time and cycle type, and the scratch triple is zeroed |
| ZGCProperties.LegacyCycle | parser/src/main/java/com/microsoft/gctoolkit/parser/ZGCParser.java:551-566 | outside generational mode a FULL cycle start at c1 followed by a memory summary at c2 publishes one full collection of FULL type and phase with that id, cause, start time c1, the summary's sizes and duration c2 - c1; nothing throws and the scratch triple ends zeroed |
| ZGCParserClasses.ZGCParser.MemorySummaryLine | parser/src/main/java/com/microsoft/gctoolkit/parser/ZGCParser.java:551-566 | the parser's new state and throw flag are the model's MemorySummaryLine |
| ZGCParserClasses.ZGCParser.EndOfFile | parser/src/main/java/com/microsoft/gctoolkit/parser/ZGCParser.java:158-160 | publishes one termination event with the clock and the diary's first-event time |
| ZGCProperties.WriteKeepsInv | parser/src/main/java/com/microsoft/gctoolkit/parser/ZGCParser.java:162-193 | a setter never changes a slot's phase, so each slot keeps an accumulator of its own phase |
| ZGCProperties.HandleKeepsInv | parser/src/main/java/com/microsoft/gctoolkit/parser/ZGCParser.java:79-109 | every handler keeps each slot holding an accumulator of its own phase |
| ZGCProperties.HandleStep | parser/src/main/java/com/microsoft/gctoolkit/parser/ZGCParser.java:79-109 | no handler touches the missed lines, the mode, the clock or the first-event time; a handler publishes at most one event, and only generationEnd, the legacy memorySummary and endOfFile publish |
| ZGCModel.FirstMatchIndex | parser/src/main/java/com/microsoft/gctoolkit/parser/ZGCParser.java:137-141 | no rule before the returned position matches the line, and the rule at it does unless it is the end |
| ZGCParserClasses.ZGCParser.FirstMatch | parser/src/main/java/com/microsoft/gctoolkit/parser/ZGCParser.java:137-141 | the loop returns the first matching rule's position, or the number of rules |
| ZGCParserClasses.ZGCParser.Handle | parser/src/main/java/com/microsoft/gctoolkit/parser/ZGCParser.java:79-109 | the handler of the trace's rule runs (a trace can only come from its own rule, by the type of the match oracle); new state and throw flag are the model's Handle |
| ZGCParserClasses.ZGCParser.Process | parser/src/main/java/com/microsoft/gctoolkit/parser/ZGCParser.java:132-152 | the parser's new state is the model's ProcessSpec |
| ZGCParserClasses.ZGCParser.Match | parser/src/main/java/com/microsoft/gctoolkit/parser/ZGCParser.java:137-141 | the result is the captures of the first rule in registration order that matches the line, or none |
| ZGCParserClasses.ZGCParser.Deliver | parser/src/main/java/com/microsoft/gctoolkit/parser/ZGCParser.java:142-152 | no match logs the line; a matched trace's handler runs, and the line is logged exactly when it throws, as the model's Deliver says |
| ZGCProperties.ProcessLogs | parser/src/main/java/com/microsoft/gctoolkit/parser/ZGCParser.java:132-156 | a header line changes nothing; a line with no match is logged; a matched line carries the captures of the rule that matched it and is logged exactly when its handler throws, so a handled line is never logged; at most one line is logged and at most one event is published |
| ZGCProperties.ProcessKeepsInv | parser/src/main/java/com/microsoft/gctoolkit/parser/ZGCParser.java:132-156 | process keeps the slot invariant |
| ZGCProperties.RunKeepsInv | parser/src/main/java/com/microsoft/gctoolkit/parser/ZGCParser.java:132-156 | the slot invariant holds after any log |
| ZGCProperties.RunSinks | parser/src/main/java/com/microsoft/gctoolkit/parser/ZGCParser.java:132-156 | a whole log only appends to the sinks, at most one missed line and one event per line, and never changes the mode or the first-event time |
| ZGCParserClasses.ZGCParser.Receive | parser/src/main/java/com/microsoft/gctoolkit/parser/ZGCParser.java:132-152 | the clock is set from the line, then the line is processed as the model's Receive says |
| ZGCProperties.LookupFinds | parser/src/main/java/com/microsoft/gctoolkit/parser/ZGCParser.java:246-292 | a name chain selects the first entry carrying the name |
| ZGCProperties.LookupMisses | parser/src/main/java/com/microsoft/gctoolkit/parser/ZGCParser.java:246-292 | a name that no entry carries selects nothing |
| ZGCProperties.LookupSound | parser/src/main/java/com/microsoft/gctoolkit/parser/ZGCParser.java:246-292 | whatever a name chain selects is paired with that name in it |
| ZGCParserClasses.ZGCParser.SetForPhase | parser/src/main/java/com/microsoft/gctoolkit/parser/ZGCParser.java:314-403 | a one-setter handler (load, MMU, mark summary, nmethods, metaspace, forwarding usage) gives the model's WriteFor: throw on an undecodable phase or empty slot, else that setter on the slot |
| ZGCParserClasses.ZGCParser.SetSelected | parser/src/main/java/com/microsoft/gctoolkit/parser/ZGCParser.java:481-521 | a table row handler gives the model's WriteSelected for the setter its name selects |
| ZGCParserClasses.ZGCParser.SetOn | parser/src/main/java/com/microsoft/gctoolkit/parser/ZGCParser.java:314-318 | a setter on the slot's reference gives the model's Write: throw on null, else only that slot changes |
| ZGCParserClasses.ZGCParser.HandleCycleLine | parser/src/main/java/com/microsoft/gctoolkit/parser/ZGCParser.java:79-109 | the cycle lines (start, generation start and end, memory summary, end of file, generation-stats header) give the model's HandleCycleLine |
| ZGCParserClasses.ZGCParser.HandleTableLine | parser/src/main/java/com/microsoft/gctoolkit/parser/ZGCParser.java:409-533 | the memory-table lines give the model's HandleTableLine |
| ZGCParserClasses.ZGCParser.HandleSummaryLine | parser/src/main/java/com/microsoft/gctoolkit/parser/ZGCParser.java:314-403 | the one-setter summary lines give the model's HandleSummaryLine |
| ZGCParserClasses.ZGCParser.HandleTimingLine | parser/src/main/java/com/microsoft/gctoolkit/parser/ZGCParser.java:226-292 | pause and concurrent phase lines give the model's HandleTimingLine; relocation summary and reference processing lines change nothing |
| ZGCParserClasses.ZGCParser.Publish | parser/src/main/java/com/microsoft/gctoolkit/parser/ZGCParser.java:578-580 | the event is appended to the published events and nothing else changes |
| ZGCParserClasses.ZGCParser.Log | parser/src/main/java/com/microsoft/gctoolkit/parser/ZGCParser.java:568-572 | the line is appended to the missed lines and nothing else changes |
| ZGCParserClasses.ZGCParser.ResetHeapCapacity | parser/src/main/java/com/microsoft/gctoolkit/parser/ZGCParser.java:564 | the scratch triple is zeroed and nothing else changes |
| ZGCParserClasses.ZGCParser.SetCapacity | parser/src/main/java/com/microsoft/gctoolkit/parser/ZGCParser.java:428-432 | one scratch cell holds the line's value and nothing else changes |
| ZGCParserClasses.ZGCParser.WriteOn | parser/src/main/java/com/microsoft/gctoolkit/parser/ZGCParser.java:481-501 | a selected setter runs on the slot's reference (throwing on null); an unselected name is reported or ignored; the model's WriteOr |
| ZGCParserClasses.ZGCParser.Pause | parser/src/main/java/com/microsoft/gctoolkit/parser/ZGCParser.java:226-244 | the mark-start chain and then the pause chain run on the slot's reference, with the new state and throw flag of the model's Pause |
| ZGCParserClasses.ZGCParser.Capture | parser/src/main/java/com/microsoft/gctoolkit/parser/ZGCParser.java:462-475 | a legacy size row fills its column of the builder and, for "Used", sets the four pool summaries; the model's Capture |
| ZGCParserClasses.ZGCParser.BuildPoolSummaries | parser/src/main/java/com/microsoft/gctoolkit/parser/ZGCParser.java:471-474 | the slot's accumulator gets the four summaries built from its own builder and nothing else changes |
| ZGCParserClasses.ZGCParser.FinishOn | parser/src/main/java/com/microsoft/gctoolkit/parser/ZGCParser.java:539-546 | the slot's accumulator gets the memory summary and, when the line gives one, the explicit duration; nothing else changes |
| ZGCParserClasses.ZGCParser.Complete | parser/src/main/java/com/microsoft/gctoolkit/parser/ZGCParser.java:535-549 | a null reference throws; otherwise the accumulator is finished and its event published, as the model's Complete |
| ZGCParserClasses.ZGCParser.NotYetImplemented | parser/src/main/java/com/microsoft/gctoolkit/parser/ZGCParser.java:500 | the not-yet-implemented count rises by one and nothing else changes |
| ZGCParserClasses.ZGCParser.Miss | parser/src/main/java/com/microsoft/gctoolkit/parser/ZGCParser.java:151 | the line is appended to the missed lines and the rest of the parser is unchanged, as the model's Log |
| ZGCProperties.HandleFramesSlots | parser/src/main/java/com/microsoft/gctoolkit/parser/ZGCParser.java:162-193 | a line writes at most the slot of its own phase (the FULL slot for a FULL cycle start and a legacy memory summary, none for lines without a phase), and every line but a cycle start or generation start keeps which cycle each slot holds |
| ZGCProperties.ProcessSparesSlot | parser/src/main/java/com/microsoft/gctoolkit/parser/ZGCParser.java:132-156 | process leaves alone a slot that no rule's captures for the line name |
| ZGCProperties.ProcessKeepsIdentities | parser/src/main/java/com/microsoft/gctoolkit/parser/ZGCParser.java:132-156 | a line that neither start rule matches leaves every slot holding the same cycle (or empty) |
| ZGCProperties.RunSparesSlot | parser/src/main/java/com/microsoft/gctoolkit/parser/ZGCParser.java:132-156 | over a whole log, a slot that no line of the log names keeps its accumulator, so lines of the other phases never disturb a cycle in progress |
| ZGCProperties.RunKeepsIdentities | parser/src/main/java/com/microsoft/gctoolkit/parser/ZGCParser.java:132-156 | over a whole log in which no line starts a cycle, every slot keeps the identity of the cycle it held, or stays empty |

## Left out

- Regular expressions and capture decoding are not part of this model. `ZGCPatterns`, `GCParseRule.parse` and the `GCLogTrace` accessors are left out. A line carries a match oracle (`Line.parse`), and each match yields its captures already decoded. An undecodable phase is `None`, which is where `getForwardRefForPhase` throws. No byte-unit scale is asserted.
- The MRU reordering of the rule queue is not modelled. The rules stay in registration order, and `process` relies only on the first match in iteration order.
- Logging and the event channel are modelled as two sinks: published events and missed lines. `LOGGER` warnings and severe messages have no effect in the model. `LOGGER.throwing` is the logging of the line that follows it.
- `GCLogTrace.notYetImplemented` is not part of this model. Its effect is a counter in the state.
- `ZGCCycleType.fromPhase` is not part of this model. It is taken as: FULL to FULL, MINOR_YOUNG to MINOR, MAJOR_YOUNG and MAJOR_OLD to MAJOR.
- The diary is not part of this model. The generational-mode flag and the first-event time are parameters of the initial state. The clock comes with each line (`Received.clock`), as the base class sets it.
- Time is integer. Clock values and durations are integers in one unit, and a sub-phase's start is clock minus duration. The source's double arithmetic and its division of milliseconds by 1000 are not modelled.
- Load averages and MMU values are opaque stored `real` sequences. No arithmetic is done on them.
- The forward reference's fields are grouped. The sub-phase start/duration pairs are one map from sub-phase to timing. The other setter-written fields are one `CycleData` record. Each trivial setter is one case of `Apply`.
- The age-table list and the load/MMU arrays are held as values, so their aliasing is not modelled. The source stores the arrays it is given and appends to its own list.
- Exceptions are modelled as a `threw` flag. A handler's writes before the failing dereference are kept, as in the source. Examples: "Soft Max Capacity" writes scratch cell 2 before dereferencing the slot, and compacted and generationEnd clear the flag first.
- The default branch of `getGCEVent` is not reachable in the model, because the phase type has exactly the four phases. A line whose phase cannot be decoded throws earlier, in `getForwardRefForPhase`.
- `getName`, `eventsProduced`, `accepts`, `publishTo` and the field-by-field getters of `ZGCForwardReference` are left out. They are I/O, registration or plain reads.
- The model follows the code where the design description differs. An undecodable phase throws, and the throw is caught and the line logged. generationEnd does not vacate its slot.
