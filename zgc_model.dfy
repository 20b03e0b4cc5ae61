/**
 * The ZGC parser as a transition system on values: one function per line
 * handler, the dispatch of `process`, and the run of a whole log. Every
 * handler returns the new state together with whether it threw; a handler
 * that throws may already have changed part of the state, exactly where the
 * source changes it before the failing dereference.
 */
module ZGCModel {
  import opened ZGCTypes

  /** The state after one handler, and whether the handler threw. */
  datatype Outcome = Outcome(state: State, threw: bool)

  function Done(s: State): Outcome { Outcome(s, false) }

  function Thrown(s: State): Outcome { Outcome(s, true) }

  /** The trace reported its label as not yet implemented: a diagnostic, not a failure. */
  function NotYetImplemented(s: State): Outcome {
    Done(s.(notYetImplemented := s.notYetImplemented + 1))
  }

  function Publish(s: State, e: JvmEvent): State {
    s.(published := s.published + [e])
  }

  /** `log`: the line goes to the missed-lines sink. */
  function Log(s: State, text: string): State {
    s.(missed := s.missed + [text])
  }

  // ----- Phase slots -----

  /** The slot index getForwardRefForPhase and setForwardRefForPhase use for a phase. */
  function SlotOf(p: Phase): (k: nat)
    ensures k < 3
  {
    match p
    case Full => 0
    case MajorYoung => 1
    case MinorYoung => 1
    case MajorOld => 2
  }

  /** The slot of a captured phase; None where the source throws (no ZGCPhase). */
  function SlotFor(phase: Option<Phase>): Option<nat> {
    match phase
    case None => None
    case Some(p) => Some(SlotOf(p))
  }

  /** Slot k is empty or holds an accumulator whose phase maps to k. */
  predicate Fits(r: Option<Accum>, k: nat) {
    r.Some? ==> SlotOf(r.value.id.phase) == k
  }

  /** The shape every reachable state has: each slot holds an accumulator of its own phase. */
  predicate Inv(s: State) {
    && Fits(s.forwardReferences.fullSlot, 0)
    && Fits(s.forwardReferences.youngSlot, 1)
    && Fits(s.forwardReferences.oldSlot, 2)
  }

  /** A parser before its first line. */
  function Initial(generational: bool, timeOfFirstEvent: int): State {
    State(Slots(None, None, None), map[], Triple(0, 0, 0), false, generational, 0, timeOfFirstEvent, [], [], 0)
  }

  /** Places accumulator `a` in slot k. */
  function Put(s: State, k: nat, a: Accum): State
    requires k < 3
  {
    s.(forwardReferences := s.forwardReferences.With(k, Some(a)))
  }

  // ----- Accumulators -----

  /** ZGCCycleType.fromPhase. */
  function CycleTypeOf(p: Phase): CycleType {
    match p
    case Full => FullCycle
    case MinorYoung => MinorCycle
    case MajorYoung => MajorCycle
    case MajorOld => MajorCycle
  }

  function EmptyData(): CycleData {
    CycleData(map[], None, None, None, None, None, None, None, None, None, None, None, None, None,
              [0.0, 0.0, 0.0], [0.0, 0.0, 0.0, 0.0, 0.0, 0.0],
              None, None, None, None, None, None, None, None, None, None, 0, None)
  }

  function EmptyPool(): Pool {
    Pool(Triple(0, 0, 0), Triple(0, 0, 0), Triple(0, 0, 0), Triple(0, 0, 0))
  }

  /** A freshly constructed ZGCForwardReference. */
  function NewAccum(clock: int, gcId: int, cause: Cause, cycleType: CycleType, phase: Phase): Accum {
    Accum(Identity(clock, gcId, cause, cycleType, phase), EmptyData(), None, EmptyPool())
  }

  /** The setters of ZGCForwardReference that write one field of the cycle's data. */
  datatype Setter =
    | SetTiming(sub: SubPhase, timing: Timing)
    | SetHeapCapacitySummary(capacity: HeapCapacitySummary)
    | SetMarkStart(markStart: MemoryPoolSummary)
    | SetMarkEnd(markEnd: MemoryPoolSummary)
    | SetRelocateStart(relocateStart: MemoryPoolSummary)
    | SetRelocateEnd(relocateEnd: MemoryPoolSummary)
    | SetMarkedLiveSummary(live: SizeTriple)
    | SetAllocatedSummary(allocatedSizes: SizeTriple)
    | SetGarbageSummary(garbage: SizeTriple)
    | SetReclaimSummary(reclaim: SizePair)
    | SetPromotedSummary(promoted: SizePair)
    | SetMemorySummary(memory: MemorySummary)
    | SetMetaspaceSummary(metaspace: MetaspaceSummary)
    | SetMarkSummary(mark: MarkSummary)
    | SetLoad(load: seq<real>)
    | SetMMU(mmu: seq<real>)
    | SetCompactedSummary(compacted: CompactedSummary)
    | SetGenerationUsedSummary(phase: Phase, used: OccupancySummary)
    | SetSoftRefSummary(soft: ReferenceSummary)
    | SetWeakRefSummary(weak: ReferenceSummary)
    | SetFinalRefSummary(final: ReferenceSummary)
    | SetPhantomRefSummary(phantom: ReferenceSummary)
    | SetNMethodSummary(nmethods: NMethodSummary)
    | SetSmallPageSummary(small: PageSummary)
    | SetMediumPageSummary(medium: PageSummary)
    | SetLargePageSummary(large: PageSummary)
    | SetForwardingUsage(kb: int)
    | AddPageAgeSummary(age: PageAgeSummary)

  function Apply(d: CycleData, w: Setter): CycleData {
    match w
    case SetTiming(sub, t) => d.(timings := d.timings[sub := t])
    case SetHeapCapacitySummary(v) => d.(heapCapacitySummary := Some(v))
    case SetMarkStart(v) => d.(markStart := Some(v))
    case SetMarkEnd(v) => d.(markEnd := Some(v))
    case SetRelocateStart(v) => d.(relocateStart := Some(v))
    case SetRelocateEnd(v) => d.(relocateEnd := Some(v))
    case SetMarkedLiveSummary(v) => d.(liveSummary := Some(v))
    case SetAllocatedSummary(v) => d.(allocatedSummary := Some(v))
    case SetGarbageSummary(v) => d.(garbageSummary := Some(v))
    case SetReclaimSummary(v) => d.(reclaimSummary := Some(v))
    case SetPromotedSummary(v) => d.(promotedSummary := Some(v))
    case SetMemorySummary(v) => d.(memorySummary := Some(v))
    case SetMetaspaceSummary(v) => d.(metaspaceSummary := Some(v))
    case SetMarkSummary(v) => d.(markSummary := Some(v))
    case SetLoad(v) => d.(load := v)
    case SetMMU(v) => d.(mmu := v)
    case SetCompactedSummary(v) => d.(compactedSummary := Some(v))
    // the generation-used summary does not apply to a non-generational (FULL) cycle
    case SetGenerationUsedSummary(p, v) => if p == Full then d else d.(generationUsedSummary := Some(v))
    case SetSoftRefSummary(v) => d.(softRefSummary := Some(v))
    case SetWeakRefSummary(v) => d.(weakRefSummary := Some(v))
    case SetFinalRefSummary(v) => d.(finalRefSummary := Some(v))
    case SetPhantomRefSummary(v) => d.(phantomRefSummary := Some(v))
    case SetNMethodSummary(v) => d.(nMethodSummary := Some(v))
    case SetSmallPageSummary(v) => d.(smallPageSummary := Some(v))
    case SetMediumPageSummary(v) => d.(mediumPageSummary := Some(v))
    case SetLargePageSummary(v) => d.(largePageSummary := Some(v))
    case SetForwardingUsage(v) => d.(forwardingUsage := v)
    case AddPageAgeSummary(v) => d.(ageTableSummary := Some(d.ageTableSummary.GetOr([]) + [v]))
  }

  /** Calls setter `w` on the reference in slot k; an empty slot is a null dereference, so the handler throws. */
  function Write(s: State, k: nat, w: Setter): (o: Outcome)
    requires k < 3
  {
    match s.forwardReferences.At(k)
    case None => Thrown(s)
    case Some(a) => Done(Put(s, k, a.(data := Apply(a.data, w))))
  }

  /** Looks up the slot of a captured phase (throwing when there is none), then calls setter `w`. */
  function WriteFor(s: State, phase: Option<Phase>, w: Setter): Outcome {
    match SlotFor(phase)
    case None => Thrown(s)
    case Some(k) => Write(s, k, w)
  }

  // ----- Event assembly -----

  function KindOf(p: Phase): CollectionKind {
    match p
    case Full => FullCollection
    case MinorYoung => YoungCollection
    case MajorYoung => YoungCollection
    case MajorOld => OldCollection
  }

  function CollectionTypeOf(p: Phase): CollectionType {
    match p
    case Full => ZGCFull
    case MinorYoung => ZGCMinorYoung
    case MajorYoung => ZGCMajorYoung
    case MajorOld => ZGCMajorOld
  }

  /** getGCEVent: the event a finished accumulator turns into at time `endTime`. */
  function GetGCEvent(a: Accum, endTime: int): (e: ZGCCollection)
    ensures a.gcDuration.Some? ==> e.duration == a.gcDuration.value
    ensures a.gcDuration.None? ==> e.duration == endTime - a.id.startTimeStamp
    ensures e.kind == FullCollection <==> a.id.phase == Full
    ensures e.kind == OldCollection <==> a.id.phase == MajorOld
    ensures e.gcType == ZGCMinorYoung <==> a.id.phase == MinorYoung
    ensures e.gcType == ZGCMajorYoung <==> a.id.phase == MajorYoung
    ensures e.gcType == ZGCFull <==> a.id.phase == Full
    ensures e.gcType == ZGCMajorOld <==> a.id.phase == MajorOld
    ensures e.kind == YoungCollection <==> a.id.phase == MinorYoung || a.id.phase == MajorYoung
    ensures e.gcId == a.id.gcId && e.cycleType == a.id.cycleType && e.phase == a.id.phase
    ensures e.cause == a.id.gcCause && e.startTime == a.id.startTimeStamp
    ensures e.data == a.data
  {
    var duration := if a.gcDuration.Some? then a.gcDuration.value else endTime - a.id.startTimeStamp;
    ZGCCollection(KindOf(a.id.phase), CollectionTypeOf(a.id.phase), a.id.startTimeStamp, a.id.gcCause,
                  duration, a.id.gcId, a.id.cycleType, a.id.phase, a.data)
  }

  // ----- Line handlers -----

  /** cycleStart: a FULL cycle installs its accumulator; any other cycle only records its cause by id. */
  function CycleStart(s: State, gcId: int, cycleType: Option<CycleType>, fullCause: Cause, cause: Cause): Outcome {
    if cycleType == Some(FullCycle) then
      Done(Put(s, SlotOf(Full), NewAccum(s.clock, gcId, fullCause, FullCycle, Full)))
    else
      Done(s.(gcCauseMap := s.gcCauseMap[gcId := cause]))
  }

  /** generationStart: in generational mode, installs an accumulator whose cause comes from the map. */
  function GenerationStart(s: State, gcId: int, phase: Option<Phase>): Outcome {
    if !s.generational then Done(s)
    else
      match phase
      case None => Thrown(s)
      case Some(p) =>
        var cause := if gcId in s.gcCauseMap then s.gcCauseMap[gcId] else UnknownGCCause;
        Done(Put(s, SlotOf(p), NewAccum(s.clock, gcId, cause, CycleTypeOf(p), p)))
  }

  /**
   * Calls the setter a line's name selected on the reference in slot k. A
   * name that selects none is ignored, or reported as not yet implemented
   * when `report` holds; neither dereferences the slot.
   */
  function WriteOr(s: State, k: nat, w: Option<Setter>, report: bool): Outcome
    requires k < 3
  {
    match w
    case Some(x) => Write(s, k, x)
    case None => if report then NotYetImplemented(s) else Done(s)
  }

  /** Looks up the slot of a captured phase (throwing when there is none), then calls the selected setter. */
  function WriteSelected(s: State, phase: Option<Phase>, w: Option<Setter>, report: bool): Outcome {
    match SlotFor(phase)
    case None => Thrown(s)
    case Some(k) => WriteOr(s, k, w, report)
  }

  /** The cell a name table selects, for tables over two, three or four cells. */
  type Column2 = i: nat | i < 2
  type Column3 = i: nat | i < 3
  type Column4 = i: nat | i < 4

  /** The value paired with the first entry of the table whose name equals the given one: an if-chain over names. */
  function Lookup<T>(table: seq<(string, T)>, name: string): Option<T> {
    if table == [] then None
    else if table[0].0 == name then Some(table[0].1)
    else Lookup(table[1..], name)
  }

  /** The timing setter of a named sub-phase, when the name was recognised. */
  function TimingSetter(named: Option<SubPhase>, timing: Timing): Option<Setter> {
    match named
    case None => None
    case Some(sub) => Some(SetTiming(sub, timing))
  }

  /** The second if-chain of pausePhase; "Mark Start" is tested by a separate `if` before it. */
  const PauseNames: seq<(string, SubPhase)> := [
    ("Mark Start (Major)", PauseMarkStart),
    ("Mark End", PauseMarkEnd),
    ("Relocate Start", PauseRelocateStart)
  ]

  /** The first `if` of pausePhase, which knows only "Mark Start". */
  const MarkStartNames: seq<(string, SubPhase)> := [("Mark Start", PauseMarkStart)]

  /** The first `if` of pausePhase: records the "Mark Start" pause and ignores any other name. */
  function MarkStart(s: State, k: nat, name: string, timing: Timing): Outcome
    requires k < 3
  {
    WriteOr(s, k, TimingSetter(Lookup(MarkStartNames, name), timing), false)
  }

  /**
   * pausePhase: records (clock - duration, duration) for the pause named by
   * the name. "Mark Start" is written by an `if` of its own, and then falls
   * through to the chain that follows, which does not know it.
   */
  function PausePhase(s: State, phase: Option<Phase>, name: string, duration: int): Outcome {
    match SlotFor(phase)
    case None => Thrown(s)
    case Some(k) => Pause(s, k, name, Timing(s.clock - duration, duration))
  }

  /** pausePhase once the reference is found: the "Mark Start" `if`, then the chain, unless the first threw. */
  function Pause(s: State, k: nat, name: string, timing: Timing): Outcome
    requires k < 3
  {
    var first := MarkStart(s, k, name, timing);
    if first.threw then first
    else WriteOr(first.state, k, TimingSetter(Lookup(PauseNames, name), timing), true)
  }

  /** The name chain of concurrentPhase, in the order it is tested. */
  const ConcurrentNames: seq<(string, SubPhase)> := [
    ("Mark", ConcurrentMark),
    ("Mark Continue", ConcurrentMarkContinue),
    ("Mark Free", ConcurrentMarkFree),
    ("Process Non-Strong References", ConcurrentProcessNonStrongReferences),
    ("Process Non-Strong", ConcurrentProcessNonStrongReferences),
    ("Reset Relocation Set", ConcurrentResetRelocationSet),
    ("Select Relocation Set", ConcurrentSelectRelocationSet),
    ("Relocate", ConcurrentRelocate),
    ("Remap Roots", ConcurrentRemapRoots),
    ("Mark Roots", MarkRoots),
    ("Mark Follow", MarkFollow),
    ("Remap Roots Colored", RemapRootsColored),
    ("Remap Roots Uncolored", RemapRootsUncolored),
    ("Remap Remembered", RemapRemembered)
  ]

  /** concurrentPhase: records (clock - duration, duration) for the concurrent phase named by the name. */
  function ConcurrentPhase(s: State, phase: Option<Phase>, name: string, duration: int): Outcome {
    WriteSelected(s, phase, TimingSetter(Lookup(ConcurrentNames, name), Timing(s.clock - duration, duration)), true)
  }

  /** The name chain of pageSummary. */
  const PageNames: seq<(string, Column3)> := [("Small", 0), ("Medium", 1), ("Large", 2)]

  function PageSetter(name: string, pages: PageSummary): Option<Setter> {
    match Lookup(PageNames, name)
    case None => None
    case Some(i) => Some([SetSmallPageSummary(pages), SetMediumPageSummary(pages), SetLargePageSummary(pages)][i])
  }

  /** pageSummary: Small, Medium and Large rows; any other name is ignored. */
  function PageSummaryLine(s: State, phase: Option<Phase>, name: string, pages: PageSummary): Outcome {
    WriteSelected(s, phase, PageSetter(name, pages), false)
  }

  /** The name chain of referenceProcessingGen. */
  const ReferenceNames: seq<(string, Column4)> := [("Soft", 0), ("Weak", 1), ("Final", 2), ("Phantom", 3)]

  function ReferenceSetter(name: string, refs: ReferenceSummary): Option<Setter> {
    match Lookup(ReferenceNames, name)
    case None => None
    case Some(i) => Some([SetSoftRefSummary(refs), SetWeakRefSummary(refs), SetFinalRefSummary(refs), SetPhantomRefSummary(refs)][i])
  }

  /** referenceProcessingGen: Soft, Weak, Final and Phantom rows; any other name is ignored. */
  function ReferenceProcessingGen(s: State, phase: Option<Phase>, name: string, refs: ReferenceSummary): Outcome {
    WriteSelected(s, phase, ReferenceSetter(name, refs), false)
  }

  /** The name chain of capacity: which cell of the scratch triple the line fills. */
  const CapacityNames: seq<(string, Column3)> := [("Min Capacity", 0), ("Max Capacity", 1), ("Soft Max Capacity", 2)]

  /** capacity: fills the shared scratch triple; "Soft Max Capacity" also freezes it into the accumulator. */
  function Capacity(s: State, phase: Option<Phase>, name: string, kb: int): Outcome {
    match SlotFor(phase)
    case None => Thrown(s)
    case Some(k) =>
      match Lookup(CapacityNames, name)
      case None => Done(s)
      case Some(i) =>
        var c := s.heapCapacity.With(i, kb);
        var s1 := s.(heapCapacity := c);
        if i == 2 then Write(s1, k, SetHeapCapacitySummary(HeapCapacitySummary(c.c0, c.c1, c.c2)))
        else Done(s1)
  }

  /** captureAtIndex: writes one column of the builder's four arrays. */
  function CaptureAtIndex(p: Pool, index: nat, row: OccupancySummary): Pool
    requires index < 3
  {
    Pool(p.markStart.With(index, row.markStart), p.markEnd.With(index, row.markEnd),
         p.relocateStart.With(index, row.relocateStart), p.relocateEnd.With(index, row.relocateEnd))
  }

  /** build*: one builder array as a memory-pool summary. */
  function Build(column: Triple): MemoryPoolSummary {
    MemoryPoolSummary(column.c0, column.c1, column.c2)
  }

  /** The four summaries the "Used" row builds from the builder, set in the order of the source. */
  function WithPoolSummaries(a: Accum): Accum {
    a.(data := Apply(Apply(Apply(Apply(a.data,
      SetMarkStart(Build(a.pool.markStart))), SetMarkEnd(Build(a.pool.markEnd))),
      SetRelocateStart(Build(a.pool.relocateStart))), SetRelocateEnd(Build(a.pool.relocateEnd))))
  }

  /** The legacy branch of sizeEntry for one column; the "Used" row (column 2) also builds the four summaries. */
  function Capture(s: State, k: nat, index: nat, row: OccupancySummary): Outcome
    requires k < 3 && index < 3
  {
    match s.forwardReferences.At(k)
    case None => Thrown(s)
    case Some(a) =>
      var a1 := a.(pool := CaptureAtIndex(a.pool, index, row));
      Done(Put(s, k, if index == 2 then WithPoolSummaries(a1) else a1))
  }

  /** The switch of the legacy branch of sizeEntry: which builder column the row fills. */
  const SizeNames: seq<(string, Column3)> := [("Capacity", 0), ("Free", 1), ("Used", 2)]

  /** sizeEntry: the generation-used row while the flag is set, else the legacy mark/relocate matrix. */
  function SizeEntry(s: State, phase: Option<Phase>, name: string, row: OccupancySummary): Outcome {
    match phase
    case None => Thrown(s)
    case Some(p) =>
      var k := SlotOf(p);
      if s.genHeapStats then
        WriteOr(s, k, if name == "Used" then Some(SetGenerationUsedSummary(p, row)) else None, true)
      else
        match Lookup(SizeNames, name)
        case None => Done(s)
        case Some(i) => Capture(s, k, i, row)
  }

  /** The name chain of occupancyEntry. */
  const OccupancyNames: seq<(string, Column3)> := [("Live", 0), ("Allocated", 1), ("Garbage", 2)]

  function OccupancySetter(name: string, sizes: SizeTriple): Option<Setter> {
    match Lookup(OccupancyNames, name)
    case None => None
    case Some(i) => Some([SetMarkedLiveSummary(sizes), SetAllocatedSummary(sizes), SetGarbageSummary(sizes)][i])
  }

  /** occupancyEntry: Live, Allocated and Garbage rows; any other name is reported as not yet implemented. */
  function OccupancyEntry(s: State, phase: Option<Phase>, name: string, sizes: SizeTriple): Outcome {
    WriteSelected(s, phase, OccupancySetter(name, sizes), true)
  }

  /** The name chain of reclaimedPromoted. */
  const ReclaimedPromotedNames: seq<(string, Column2)> := [("Reclaimed", 0), ("Promoted", 1)]

  function ReclaimedPromotedSetter(name: string, pair: SizePair): Option<Setter> {
    match Lookup(ReclaimedPromotedNames, name)
    case None => None
    case Some(i) => Some([SetReclaimSummary(pair), SetPromotedSummary(pair)][i])
  }

  /** reclaimedPromoted: Reclaimed and Promoted rows; any other name is ignored. */
  function ReclaimedPromoted(s: State, phase: Option<Phase>, name: string, pair: SizePair): Outcome {
    WriteSelected(s, phase, ReclaimedPromotedSetter(name, pair), false)
  }

  /** compacted: leaves generation-stats mode (before touching the accumulator), then records the compacted size. */
  function Compacted(s: State, phase: Option<Phase>, kb: int): Outcome {
    match SlotFor(phase)
    case None => Thrown(s)
    case Some(k) => Write(s.(genHeapStats := false), k, SetCompactedSummary(CompactedSummary(kb)))
  }

  /** setMemorySummary, then setGcDuration when the line states a duration. */
  function Finish(a: Accum, memory: MemorySummary, explicitDuration: Option<int>): Accum {
    var a1 := a.(data := Apply(a.data, SetMemorySummary(memory)));
    if explicitDuration.Some? then a1.(gcDuration := explicitDuration) else a1
  }

  /** The end of a cycle: finish the reference of slot k and publish its event; the slot keeps the reference. */
  function Complete(s: State, k: nat, memory: MemorySummary, explicitDuration: Option<int>): Outcome
    requires k < 3
  {
    match s.forwardReferences.At(k)
    case None => Thrown(s)
    case Some(a) =>
      var a1 := Finish(a, memory, explicitDuration);
      Done(Publish(Put(s, k, a1), Collection(GetGCEvent(a1, s.clock))))
  }

  /** generationEnd: clears the flag, then completes the cycle of the line's phase. */
  function GenerationEnd(s: State, phase: Option<Phase>, memory: MemorySummary, explicitDuration: Option<int>): Outcome {
    match SlotFor(phase)
    case None => Thrown(s)
    case Some(k) => Complete(s.(genHeapStats := false), k, memory, explicitDuration)
  }

  /** memorySummary: generational mode drops the id's cause; legacy mode completes the FULL cycle. Both reset the scratch triple. */
  function MemorySummaryLine(s: State, gcId: int, memory: MemorySummary): Outcome {
    var o :=
      if s.generational then Done(s.(gcCauseMap := s.gcCauseMap - {gcId}))
      else Complete(s, SlotOf(Full), memory, None);
    if o.threw then o else Done(o.state.(heapCapacity := Triple(0, 0, 0)))
  }

  /** The lines that open, close or end a cycle, or switch the generation-stats mode. */
  predicate IsCycleLine(t: Trace) {
    || t.CycleStartTrace? || t.GenerationStartTrace? || t.GenerationEndTrace?
    || t.MemorySummaryTrace? || t.EndOfFileTrace? || t.MarkGenHeapStatsTrace?
  }

  /** The rows of the memory tables, whose name selects what they record. */
  predicate IsTableLine(t: Trace) {
    || t.CapacityTrace? || t.SizeEntryTrace? || t.OccupancyEntryTrace? || t.ReclaimedPromotedTrace?
    || t.ReferenceProcessingGenTrace? || t.PagesTrace? || t.CompactedTrace?
  }

  /** The summary lines, each recorded by one fixed setter. */
  predicate IsSummaryLine(t: Trace) {
    || t.LoadTrace? || t.LoadGenTrace? || t.MmuTrace? || t.MarkSummaryTrace?
    || t.NMethodsTrace? || t.MetaspaceTrace? || t.ForwardingUsageTrace? || t.AgeTableTrace?
  }

  /** The remaining lines: pause and concurrent phase timings, and the two lines the parser ignores. */
  predicate IsTimingLine(t: Trace) {
    !IsCycleLine(t) && !IsTableLine(t) && !IsSummaryLine(t)
  }

  /** The handler the rule that matched a line dispatches to, with the line's captures. */
  function Handle(s: State, t: Trace): Outcome {
    if IsCycleLine(t) then HandleCycleLine(s, t)
    else if IsTableLine(t) then HandleTableLine(s, t)
    else if IsSummaryLine(t) then HandleSummaryLine(s, t)
    else HandleTimingLine(s, t)
  }

  /** cycleStart, generationStart, generationEnd, memorySummary, endOfFile and the generation-stats header. */
  function HandleCycleLine(s: State, t: Trace): Outcome
    requires IsCycleLine(t)
  {
    match t
    case CycleStartTrace(id, ct, fullCause, cause) => CycleStart(s, id, ct, fullCause, cause)
    case GenerationStartTrace(id, p) => GenerationStart(s, id, p)
    case GenerationEndTrace(p, m, d) => GenerationEnd(s, p, m, d)
    case MemorySummaryTrace(id, m) => MemorySummaryLine(s, id, m)
    case EndOfFileTrace => Done(Publish(s, Termination(s.clock, s.timeOfFirstEvent)))
    case MarkGenHeapStatsTrace => Done(s.(genHeapStats := true))
  }

  /** capacity, sizeEntry, occupancyEntry, reclaimedPromoted, referenceProcessingGen, pageSummary and compacted. */
  function HandleTableLine(s: State, t: Trace): Outcome
    requires IsTableLine(t)
  {
    match t
    case CapacityTrace(p, name, kb) => Capacity(s, p, name, kb)
    case SizeEntryTrace(p, name, row) => SizeEntry(s, p, name, row)
    case OccupancyEntryTrace(p, name, v) => OccupancyEntry(s, p, name, v)
    case ReclaimedPromotedTrace(p, name, v) => ReclaimedPromoted(s, p, name, v)
    case ReferenceProcessingGenTrace(p, name, v) => ReferenceProcessingGen(s, p, name, v)
    case PagesTrace(p, name, v) => PageSummaryLine(s, p, name, v)
    case CompactedTrace(p, kb) => Compacted(s, p, kb)
  }

  /** load, mmu, markSummary, nMethods, metaspace, forwardingUsage and ageTable: one setter each. */
  function HandleSummaryLine(s: State, t: Trace): Outcome
    requires IsSummaryLine(t)
  {
    match t
    case LoadTrace(p, v) => WriteFor(s, p, SetLoad(v))
    case LoadGenTrace(p, v) => WriteFor(s, p, SetLoad(v))
    case MmuTrace(p, v) => WriteFor(s, p, SetMMU(v))
    case MarkSummaryTrace(p, v) => WriteFor(s, p, SetMarkSummary(v))
    case NMethodsTrace(p, v) => WriteFor(s, p, SetNMethodSummary(v))
    case MetaspaceTrace(p, v) => WriteFor(s, p, SetMetaspaceSummary(v))
    case ForwardingUsageTrace(p, kb) => WriteFor(s, p, SetForwardingUsage(kb))
    case AgeTableTrace(p, v) => WriteFor(s, p, AddPageAgeSummary(v))
  }

  /** pausePhase and concurrentPhase; relocationSummary and referenceProcessing do nothing. */
  function HandleTimingLine(s: State, t: Trace): Outcome
    requires IsTimingLine(t)
  {
    match t
    case PausePhaseTrace(p, name, d) => PausePhase(s, p, name, d)
    case ConcurrentPhaseTrace(p, name, d) => ConcurrentPhase(s, p, name, d)
    case RelocationSummaryTrace => Done(s)
    case ReferenceProcessingTrace => Done(s)
  }

  // ----- Dispatch -----

  /** The position of the first rule for which `parse` yields captures, or |rules| when none does; `parse` is a line's match oracle. */
  function FirstMatchIndex(rules: seq<Rule>, parse: Rule -> Option<Trace>): (i: nat)
    ensures i <= |rules|
    ensures forall j | 0 <= j < i :: parse(rules[j]).None?
    ensures i < |rules| ==> parse(rules[i]).Some?
  {
    if rules == [] then 0
    else if parse(rules[0]).Some? then 0
    else 1 + FirstMatchIndex(rules[1..], parse)
  }

  /** Any position with no match before it, and a match at it or the end there, is the first match. */
  lemma FirstMatchIndexIs(rules: seq<Rule>, parse: Rule -> Option<Trace>, i: nat)
    requires i <= |rules|
    requires forall j | 0 <= j < i :: parse(rules[j]).None?
    requires i < |rules| ==> parse(rules[i]).Some?
    ensures FirstMatchIndex(rules, parse) == i
  {
  }

  /** The result of matching: no match logs the line; a matched trace runs its handler, and the line is logged if the handler threw. */
  function Deliver(s: State, text: string, matched: Option<Trace>): State {
    match matched
    case None => Log(s, text)
    case Some(t) =>
      var o := Handle(s, t);
      if o.threw then Log(o.state, text) else o.state
  }

  /** The captures of the first rule whose pattern matches the line, if any does. */
  function Matched(line: Line): Option<Trace> {
    var i := FirstMatchIndex(ParseRules, line.parse);
    if i == |ParseRules| then None else line.parse(ParseRules[i])
  }

  /** process: skip header lines; otherwise run the first matching rule's handler, logging the line when nothing matches or the handler throws. */
  function ProcessSpec(s: State, line: Line): State {
    if line.isHeader then s else Deliver(s, line.text, Matched(line))
  }

  /** The clock is set from the line's time stamp, then the line is processed. */
  function Receive(s: State, r: Received): State {
    ProcessSpec(s.(clock := r.clock), r.line)
  }

  /** A whole log, line by line. */
  function Run(s: State, log: seq<Received>): State
    decreases |log|
  {
    if log == [] then s else Run(Receive(s, log[0]), log[1..])
  }
}
