/**
 * Value types of the ZGC log parser: the phases and causes a cycle is tagged
 * with, the immutable summary records an event carries, the decoded captures
 * of each parse rule (a Trace), the rule table, and the plain-value picture
 * of the parser's state that the transition functions of ZGCModel work on.
 *
 * Units: every size is in kilobytes as the trace's byte-size accessor hands it
 * over; the clock and every duration are integers in microseconds.
 */
module ZGCTypes {

  datatype Option<+T> = None | Some(value: T) {
    function GetOr(default: T): T {
      match this
      case Some(v) => v
      case None => default
    }
  }

  /** ZGCPhase: which generation a line or a cycle concerns. */
  datatype Phase = Full | MajorYoung | MinorYoung | MajorOld

  /** ZGCCycleType. */
  datatype CycleType = FullCycle | MinorCycle | MajorCycle

  /** GCCause; UnknownGCCause is the default used when no cause was recorded. */
  datatype Cause = UnknownGCCause | NamedCause(name: string)

  /** The GarbageCollectionTypes values a ZGC event is created with. */
  datatype CollectionType = ZGCFull | ZGCMinorYoung | ZGCMajorYoung | ZGCMajorOld

  /** The three event classes: ZGCFullCollection, ZGCYoungCollection, ZGCOldCollection. */
  datatype CollectionKind = FullCollection | YoungCollection | OldCollection

  /** The named sub-phases whose (start, duration) pair an accumulator records. */
  datatype SubPhase =
    | PauseMarkStart | PauseMarkEnd | PauseRelocateStart
    | ConcurrentMark | ConcurrentMarkContinue | ConcurrentMarkFree
    | ConcurrentProcessNonStrongReferences | ConcurrentResetRelocationSet
    | ConcurrentSelectRelocationSet | ConcurrentRelocate | ConcurrentRemapRoots
    | MarkRoots | MarkFollow | RemapRootsColored | RemapRootsUncolored | RemapRemembered

  /** Start time stamp and duration of one sub-phase. */
  datatype Timing = Timing(start: int, duration: int)

  // The immutable summary records. Fields named after a capture group
  // (kb3, kb6, ...) are values the model only stores and copies.

  datatype HeapCapacitySummary = HeapCapacitySummary(minCapacity: int, maxCapacity: int, softMaxCapacity: int)

  /** One row of the legacy mark/relocate matrix, by column: capacity, free, used. */
  datatype MemoryPoolSummary = MemoryPoolSummary(capacity: int, free: int, used: int)

  /** A size row with its four columns: mark start, mark end, relocate start, relocate end. */
  datatype OccupancySummary = OccupancySummary(markStart: int, markEnd: int, relocateStart: int, relocateEnd: int)

  /** Live, allocated and garbage summaries (groups 3, 6 and 9 of their line). */
  datatype SizeTriple = SizeTriple(kb3: int, kb6: int, kb9: int)

  /** Reclaim and promoted summaries (groups 3 and 6 of their line). */
  datatype SizePair = SizePair(kb3: int, kb6: int)

  datatype MemorySummary = MemorySummary(before: int, after: int)

  datatype MetaspaceSummary = MetaspaceSummary(used: int, committed: int, reserved: int)

  datatype MarkSummary = MarkSummary(g2: int, g3: int, g4: int, g5: int, g6: int)

  datatype NMethodSummary = NMethodSummary(registered: int, unregistered: int)

  datatype ReferenceSummary = ReferenceSummary(encountered: int, discovered: int, enqueued: int)

  datatype PageSummary = PageSummary(g3: int, g4: int, g5: int, kb6: int, kb8: int, kb10: int)

  datatype PageAgeSummary = PageAgeSummary(name: string, kb3: int, g5: int, kb6: int, g8: int, counts: seq<int>)

  datatype CompactedSummary = CompactedSummary(kb: int)

  /**
   * Every field a cycle's lines may contribute, as it is copied verbatim into
   * the event. `timings` holds the (start, duration) pair of each sub-phase
   * that was seen; `load` and `mmu` start as zero arrays, `forwardingUsage`
   * as 0 and `ageTableSummary` as absent (a null list), as in the source.
   */
  datatype CycleData = CycleData(
    timings: map<SubPhase, Timing>,
    heapCapacitySummary: Option<HeapCapacitySummary>,
    markStart: Option<MemoryPoolSummary>,
    markEnd: Option<MemoryPoolSummary>,
    relocateStart: Option<MemoryPoolSummary>,
    relocateEnd: Option<MemoryPoolSummary>,
    liveSummary: Option<SizeTriple>,
    allocatedSummary: Option<SizeTriple>,
    garbageSummary: Option<SizeTriple>,
    reclaimSummary: Option<SizePair>,
    promotedSummary: Option<SizePair>,
    memorySummary: Option<MemorySummary>,
    metaspaceSummary: Option<MetaspaceSummary>,
    markSummary: Option<MarkSummary>,
    load: seq<real>,
    mmu: seq<real>,
    compactedSummary: Option<CompactedSummary>,
    generationUsedSummary: Option<OccupancySummary>,
    softRefSummary: Option<ReferenceSummary>,
    weakRefSummary: Option<ReferenceSummary>,
    finalRefSummary: Option<ReferenceSummary>,
    phantomRefSummary: Option<ReferenceSummary>,
    nMethodSummary: Option<NMethodSummary>,
    smallPageSummary: Option<PageSummary>,
    mediumPageSummary: Option<PageSummary>,
    largePageSummary: Option<PageSummary>,
    forwardingUsage: int,
    ageTableSummary: Option<seq<PageAgeSummary>>)

  /** The final fields of a forward reference, fixed when it is created. */
  datatype Identity = Identity(startTimeStamp: int, gcId: int, gcCause: Cause, cycleType: CycleType, phase: Phase)

  /** Three integers indexed 0, 1, 2: one builder array, or the heap-capacity scratch array. */
  datatype Triple = Triple(c0: int, c1: int, c2: int) {
    function At(i: nat): int
      requires i < 3
    {
      if i == 0 then c0 else if i == 1 then c1 else c2
    }

    function With(i: nat, v: int): Triple
      requires i < 3
    {
      if i == 0 then this.(c0 := v) else if i == 1 then this.(c1 := v) else this.(c2 := v)
    }
  }

  /** The memory-pool summary builder: four arrays of three columns (capacity, free, used) each. */
  datatype Pool = Pool(markStart: Triple, markEnd: Triple, relocateStart: Triple, relocateEnd: Triple)

  /** A forward reference (the accumulator of one in-flight cycle), as a value. */
  datatype Accum = Accum(id: Identity, data: CycleData, gcDuration: Option<int>, pool: Pool)

  /** An assembled ZGC collection event. */
  datatype ZGCCollection = ZGCCollection(
    kind: CollectionKind,
    gcType: CollectionType,
    startTime: int,
    cause: Cause,
    duration: int,
    gcId: int,
    cycleType: CycleType,
    phase: Phase,
    data: CycleData)

  /** What the parser publishes: a collection event or the end-of-log termination event. */
  datatype JvmEvent = Collection(collection: ZGCCollection) | Termination(clock: int, timeOfFirstEvent: int)

  /** The parse rules, one per line shape, each bound to one handler. */
  datatype Rule =
    | CycleStartRule | PausePhaseRule | ConcurrentPhaseRule | LoadRule | MmuRule
    | MarkSummaryRule | RelocationSummaryRule | NMethodsRule | MetaspaceRule
    | ReferenceProcessingRule | CapacityRule | MemoryTableEntrySizeRule
    | MemoryTableEntryOccupancyRule | MemorySummaryRule | EndOfFileRule
    | MemoryTableEntryReclaimedPromotedRule | MemoryTableEntryCompactedRule
    | LoadGenRule | ReferenceProcessingGenRule | EndOfPhaseSummaryGenRule
    | PagesGenRule | ForwardingUsageGenRule | AgeTableGenRule | GenerationStartRule
    | MarkGenHeapStatsRule

  /**
   * The rule registered at position `i`, in registration order; the table
   * has 25 positions, and the last rule also answers for any position past it.
   */
  function RuleAt(i: int): Rule {
    if i == 0 then CycleStartRule
    else if i == 1 then PausePhaseRule
    else if i == 2 then ConcurrentPhaseRule
    else if i == 3 then LoadRule
    else if i == 4 then MmuRule
    else if i == 5 then MarkSummaryRule
    else if i == 6 then RelocationSummaryRule
    else if i == 7 then NMethodsRule
    else if i == 8 then MetaspaceRule
    else if i == 9 then ReferenceProcessingRule
    else if i == 10 then CapacityRule
    else if i == 11 then MemoryTableEntrySizeRule
    else if i == 12 then MemoryTableEntryOccupancyRule
    else if i == 13 then MemorySummaryRule
    else if i == 14 then EndOfFileRule
    else if i == 15 then MemoryTableEntryReclaimedPromotedRule
    else if i == 16 then MemoryTableEntryCompactedRule
    else if i == 17 then LoadGenRule
    else if i == 18 then ReferenceProcessingGenRule
    else if i == 19 then EndOfPhaseSummaryGenRule
    else if i == 20 then PagesGenRule
    else if i == 21 then ForwardingUsageGenRule
    else if i == 22 then AgeTableGenRule
    else if i == 23 then GenerationStartRule
    else MarkGenHeapStatsRule
  }

  /** The rule table in registration order, which is the order `process` tries them in. */
  const ParseRules: seq<Rule> := seq(25, RuleAt)

  /**
   * The decoded captures of one matched line. There is one variant per rule,
   * and the variant selects the handler bound to that rule. A `phase` of None
   * is phase text the trace could not map to a ZGCPhase (a null in the
   * source), which makes the slot lookup fail.
   */
  datatype Trace =
      /** id, cycle type, and the cause as decoded by the full branch (gcCause(3,0))
          and by the generational branch (gcCause(1,2)). */
    | CycleStartTrace(id: int, cycleType: Option<CycleType>, fullCause: Cause, cause: Cause)
    | PausePhaseTrace(phase: Option<Phase>, name: string, duration: int)
    | ConcurrentPhaseTrace(phase: Option<Phase>, name: string, duration: int)
    | LoadTrace(phase: Option<Phase>, averages: seq<real>)
    | MmuTrace(phase: Option<Phase>, percentages: seq<real>)
    | MarkSummaryTrace(phase: Option<Phase>, mark: MarkSummary)
    | RelocationSummaryTrace
    | NMethodsTrace(phase: Option<Phase>, nmethods: NMethodSummary)
    | MetaspaceTrace(phase: Option<Phase>, metaspace: MetaspaceSummary)
    | ReferenceProcessingTrace
    | CapacityTrace(phase: Option<Phase>, name: string, kb: int)
    | SizeEntryTrace(phase: Option<Phase>, name: string, row: OccupancySummary)
    | OccupancyEntryTrace(phase: Option<Phase>, name: string, sizes: SizeTriple)
      /** id (group 1) and the before/after sizes of the legacy line (groups 4 and 7). */
    | MemorySummaryTrace(id: int, memory: MemorySummary)
    | EndOfFileTrace
    | ReclaimedPromotedTrace(phase: Option<Phase>, name: string, pair: SizePair)
    | CompactedTrace(phase: Option<Phase>, kb: int)
    | LoadGenTrace(phase: Option<Phase>, averages: seq<real>)
    | ReferenceProcessingGenTrace(phase: Option<Phase>, name: string, references: ReferenceSummary)
      /** before/after (groups 3 and 6) and the explicit duration of group 9, when present. */
    | GenerationEndTrace(phase: Option<Phase>, memory: MemorySummary, explicitDuration: Option<int>)
    | PagesTrace(phase: Option<Phase>, name: string, pages: PageSummary)
    | ForwardingUsageTrace(phase: Option<Phase>, kb: int)
    | AgeTableTrace(phase: Option<Phase>, age: PageAgeSummary)
    | GenerationStartTrace(id: int, phase: Option<Phase>)
    | MarkGenHeapStatsTrace

  /**
   * One log line: its text, whether the memory-table header pattern matches
   * it, and the pattern-match oracle that tells, for each rule, whether the
   * rule's pattern matches the line and with which captures.
   */
  datatype Line = Line(text: string, isHeader: bool, parse: Matcher)

  /**
   * The rule whose handler a trace's captures belong to: the registrations
   * of the rule table, one variant per rule.
   */
  function RuleOf(t: Trace): Rule {
    match t
    case CycleStartTrace(_, _, _, _) => CycleStartRule
    case PausePhaseTrace(_, _, _) => PausePhaseRule
    case ConcurrentPhaseTrace(_, _, _) => ConcurrentPhaseRule
    case LoadTrace(_, _) => LoadRule
    case MmuTrace(_, _) => MmuRule
    case MarkSummaryTrace(_, _) => MarkSummaryRule
    case RelocationSummaryTrace => RelocationSummaryRule
    case NMethodsTrace(_, _) => NMethodsRule
    case MetaspaceTrace(_, _) => MetaspaceRule
    case ReferenceProcessingTrace => ReferenceProcessingRule
    case CapacityTrace(_, _, _) => CapacityRule
    case SizeEntryTrace(_, _, _) => MemoryTableEntrySizeRule
    case OccupancyEntryTrace(_, _, _) => MemoryTableEntryOccupancyRule
    case MemorySummaryTrace(_, _) => MemorySummaryRule
    case EndOfFileTrace => EndOfFileRule
    case ReclaimedPromotedTrace(_, _, _) => MemoryTableEntryReclaimedPromotedRule
    case CompactedTrace(_, _) => MemoryTableEntryCompactedRule
    case LoadGenTrace(_, _) => LoadGenRule
    case ReferenceProcessingGenTrace(_, _, _) => ReferenceProcessingGenRule
    case GenerationEndTrace(_, _, _) => EndOfPhaseSummaryGenRule
    case PagesTrace(_, _, _) => PagesGenRule
    case ForwardingUsageTrace(_, _) => ForwardingUsageGenRule
    case AgeTableTrace(_, _) => AgeTableGenRule
    case GenerationStartTrace(_, _) => GenerationStartRule
    case MarkGenHeapStatsTrace => MarkGenHeapStatsRule
  }

  /**
   * A pattern-match oracle: for each rule, no match, or the captures of that
   * rule's own shape, so the handler a trace selects is the one registered
   * for the rule that matched.
   */
  type Matcher = f: Rule -> Option<Trace> | forall r :: f(r).Some? ==> RuleOf(f(r).value) == r
    witness (r: Rule) => None

  /** A line with the clock value the log-parser base class set before handing it over. */
  datatype Received = Received(clock: int, line: Line)

  /** The three forward-reference slots: FULL (0), young (1) and old (2). */
  datatype Slots = Slots(fullSlot: Option<Accum>, youngSlot: Option<Accum>, oldSlot: Option<Accum>) {
    function At(k: nat): Option<Accum>
      requires k < 3
    {
      if k == 0 then fullSlot else if k == 1 then youngSlot else oldSlot
    }

    function With(k: nat, r: Option<Accum>): Slots
      requires k < 3
    {
      if k == 0 then this.(fullSlot := r) else if k == 1 then this.(youngSlot := r) else this.(oldSlot := r)
    }
  }

  /**
   * The parser's state as a value: the three forward-reference slots, the
   * id-to-cause map, the heap-capacity scratch triple, the generation-stats
   * flag, the generational-mode answer of the diary, the clock, the diary's
   * time of first event, the published events, the missed (logged) lines, and
   * how often a trace reported a name as not yet implemented.
   */
  datatype State = State(
    forwardReferences: Slots,
    gcCauseMap: map<int, Cause>,
    heapCapacity: Triple,
    genHeapStats: bool,
    generational: bool,
    clock: int,
    timeOfFirstEvent: int,
    published: seq<JvmEvent>,
    missed: seq<string>,
    notYetImplemented: nat)
}
