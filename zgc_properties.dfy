/**
 * What the ZGC parser promises, proved about the transition functions of
 * ZGCModel: the slot discipline every line keeps, what each handler does to
 * the accumulator of its phase and to the rest of the state, the sequences of
 * lines that make up a cycle, and what a whole log does to the event and
 * missed-line sinks.
 */
module ZGCProperties {
  import opened ZGCTypes
  import opened ZGCModel

  // ----- Name tables -----

  /** A name that occurs in no entry of a table selects nothing. */
  lemma {:induction false} LookupMisses<T>(table: seq<(string, T)>, name: string)
    requires forall i | 0 <= i < |table| :: table[i].0 != name
    ensures Lookup(table, name) == None
    decreases |table|
  {
    if table != [] {
      assert forall i | 0 <= i < |table| - 1 :: table[1..][i] == table[i + 1];
      LookupMisses(table[1..], name);
    }
  }

  /** The first entry carrying a name is the one it selects. */
  lemma {:induction false} LookupFinds<T>(table: seq<(string, T)>, i: nat)
    requires i < |table|
    requires forall j | 0 <= j < i :: table[j].0 != table[i].0
    ensures Lookup(table, table[i].0) == Some(table[i].1)
    decreases i
  {
    if i > 0 {
      assert forall j | 0 <= j < i - 1 :: table[1..][j] == table[j + 1];
      LookupFinds(table[1..], i - 1);
    }
  }

  /** Whatever a table returns for a name is paired with that name in the table. */
  lemma {:induction false} LookupSound<T>(table: seq<(string, T)>, name: string)
    ensures Lookup(table, name).Some? ==>
      exists i | 0 <= i < |table| :: table[i] == (name, Lookup(table, name).value)
    decreases |table|
  {
    if table != [] && table[0].0 != name {
      LookupSound(table[1..], name);
      if Lookup(table[1..], name).Some? {
        var i :| 0 <= i < |table[1..]| && table[1..][i] == (name, Lookup(table[1..], name).value);
        assert table[i + 1] == table[1..][i];
      }
    }
  }

  // ----- Setters -----

  /** The data after one ageTable line per row, in order. */
  function AddAgeRows(d: CycleData, vs: seq<PageAgeSummary>): CycleData
    decreases |vs|
  {
    if vs == [] then d else AddAgeRows(Apply(d, AddPageAgeSummary(vs[0])), vs[1..])
  }

  /**
   * The age table keeps every row in arrival order: after any number of age
   * table lines the list is the old list (empty when absent) followed by the
   * new rows, present from the first row on, and nothing else changes.
   */
  lemma {:induction false} AgeTableAccumulates(d: CycleData, vs: seq<PageAgeSummary>)
    ensures vs != [] ==> AddAgeRows(d, vs) == d.(ageTableSummary := Some(d.ageTableSummary.GetOr([]) + vs))
    ensures vs == [] ==> AddAgeRows(d, vs) == d
    decreases |vs|
  {
    if vs != [] {
      var d1 := Apply(d, AddPageAgeSummary(vs[0]));
      assert d1 == d.(ageTableSummary := Some(d.ageTableSummary.GetOr([]) + [vs[0]]));
      AgeTableAccumulates(d1, vs[1..]);
      if vs[1..] == [] {
        assert [vs[0]] == vs;
      } else {
        assert d.ageTableSummary.GetOr([]) + [vs[0]] + vs[1..] == d.ageTableSummary.GetOr([]) + vs;
      }
    }
  }

  // ----- Slots -----

  /**
   * getForwardRefForPhase after setForwardRefForPhase: FULL, the two young
   * phases and MAJOR_OLD use three different slots; every phase that shares
   * the slot of the one installed reads the new accumulator back, and the
   * other slots keep theirs.
   */
  lemma SlotRoundTrip(s: State, p: Phase, q: Phase, a: Accum)
    ensures SlotOf(p) == SlotOf(q) <==> p == q || (p != Full && p != MajorOld && q != Full && q != MajorOld)
    ensures SlotOf(p) == SlotOf(q) ==> Put(s, SlotOf(p), a).forwardReferences.At(SlotOf(q)) == Some(a)
    ensures SlotOf(p) != SlotOf(q) ==> Put(s, SlotOf(p), a).forwardReferences.At(SlotOf(q)) == s.forwardReferences.At(SlotOf(q))
    ensures Put(s, SlotOf(p), a).(forwardReferences := s.forwardReferences) == s
  {
  }

  /** A slot of a state that has the invariant holds an accumulator of its own phase. */
  lemma InvAt(s: State, k: nat)
    requires Inv(s) && k < 3
    ensures Fits(s.forwardReferences.At(k), k)
  {
  }

  /** Putting an accumulator into the slot of its own phase keeps the invariant. */
  lemma PutKeepsInv(s: State, k: nat, a: Accum)
    requires Inv(s) && k < 3 && SlotOf(a.id.phase) == k
    ensures Inv(Put(s, k, a))
  {
  }

  /** A setter never changes the identity of the accumulator it writes, so it keeps the invariant. */
  lemma WriteKeepsInv(s: State, k: nat, w: Setter)
    requires Inv(s) && k < 3
    ensures Inv(Write(s, k, w).state)
  {
    InvAt(s, k);
    if s.forwardReferences.At(k).Some? {
      PutKeepsInv(s, k, s.forwardReferences.At(k).value.(data := Apply(s.forwardReferences.At(k).value.data, w)));
    }
  }

  /**
   * A setter call on a captured phase throws exactly when the phase could not
   * be decoded or its slot is empty, and then changes nothing; otherwise it
   * rewrites the data of that slot's accumulator and nothing else.
   */
  lemma WriteForEffect(s: State, phase: Option<Phase>, w: Setter)
    ensures WriteFor(s, phase, w).threw <==> phase.None? || s.forwardReferences.At(SlotOf(phase.value)).None?
    ensures WriteFor(s, phase, w).threw ==> WriteFor(s, phase, w).state == s
    ensures !WriteFor(s, phase, w).threw ==>
      var k := SlotOf(phase.value);
      var a := s.forwardReferences.At(k).value;
      && WriteFor(s, phase, w).state.forwardReferences.At(k) == Some(a.(data := Apply(a.data, w)))
      && (forall j | 0 <= j < 3 && j != k :: WriteFor(s, phase, w).state.forwardReferences.At(j) == s.forwardReferences.At(j))
      && WriteFor(s, phase, w).state.(forwardReferences := s.forwardReferences) == s
  {
  }

  lemma CapacityKeepsInv(s: State, phase: Option<Phase>, name: string, kb: int)
    requires Inv(s)
    ensures Inv(Capacity(s, phase, name, kb).state)
  {
    if phase.Some? && Lookup(CapacityNames, name).Some? {
      var k := SlotOf(phase.value);
      var c := s.heapCapacity.With(Lookup(CapacityNames, name).value, kb);
      WriteKeepsInv(s.(heapCapacity := c), k, SetHeapCapacitySummary(HeapCapacitySummary(c.c0, c.c1, c.c2)));
    }
  }

  lemma SizeEntryKeepsInv(s: State, phase: Option<Phase>, name: string, row: OccupancySummary)
    requires Inv(s)
    ensures Inv(SizeEntry(s, phase, name, row).state)
  {
    if phase.Some? {
      var k := SlotOf(phase.value);
      if s.genHeapStats {
        if name == "Used" {
          WriteKeepsInv(s, k, SetGenerationUsedSummary(phase.value, row));
        }
      } else if Lookup(SizeNames, name).Some? {
        InvAt(s, k);
      }
    }
  }

  lemma WriteSelectedKeepsInv(s: State, phase: Option<Phase>, w: Option<Setter>, report: bool)
    requires Inv(s)
    ensures Inv(WriteSelected(s, phase, w, report).state)
  {
    if phase.Some? && w.Some? {
      WriteKeepsInv(s, SlotOf(phase.value), w.value);
    }
  }

  lemma WriteOrKeepsInv(s: State, k: nat, w: Option<Setter>, report: bool)
    requires Inv(s) && k < 3
    ensures Inv(WriteOr(s, k, w, report).state)
  {
    if w.Some? {
      WriteKeepsInv(s, k, w.value);
    }
  }

  lemma PauseKeepsInv(s: State, k: nat, name: string, timing: Timing)
    requires Inv(s) && k < 3
    ensures Inv(Pause(s, k, name, timing).state)
  {
    var first := MarkStart(s, k, name, timing);
    WriteOrKeepsInv(s, k, TimingSetter(Lookup(MarkStartNames, name), timing), false);
    if !first.threw {
      WriteOrKeepsInv(first.state, k, TimingSetter(Lookup(PauseNames, name), timing), true);
    }
  }

  lemma CompleteKeepsInv(s: State, k: nat, memory: MemorySummary, d: Option<int>)
    requires Inv(s) && k < 3
    ensures Inv(Complete(s, k, memory, d).state)
  {
    InvAt(s, k);
  }

  lemma CycleLineKeepsInv(s: State, t: Trace)
    requires Inv(s) && IsCycleLine(t)
    ensures Inv(HandleCycleLine(s, t).state)
  {
    match t
    case GenerationEndTrace(p, m, d) =>
      if p.Some? {
        CompleteKeepsInv(s.(genHeapStats := false), SlotOf(p.value), m, d);
      }
    case MemorySummaryTrace(id, m) =>
      if !s.generational {
        CompleteKeepsInv(s, SlotOf(Full), m, None);
      }
    case _ =>
  }

  lemma TableLineKeepsInv(s: State, t: Trace)
    requires Inv(s) && IsTableLine(t)
    ensures Inv(HandleTableLine(s, t).state)
  {
    match t
    case CapacityTrace(p, name, kb) => CapacityKeepsInv(s, p, name, kb);
    case SizeEntryTrace(p, name, row) => SizeEntryKeepsInv(s, p, name, row);
    case OccupancyEntryTrace(p, name, v) => WriteSelectedKeepsInv(s, p, OccupancySetter(name, v), true);
    case ReclaimedPromotedTrace(p, name, v) => WriteSelectedKeepsInv(s, p, ReclaimedPromotedSetter(name, v), false);
    case ReferenceProcessingGenTrace(p, name, v) => WriteSelectedKeepsInv(s, p, ReferenceSetter(name, v), false);
    case PagesTrace(p, name, v) => WriteSelectedKeepsInv(s, p, PageSetter(name, v), false);
    case CompactedTrace(p, kb) =>
      if p.Some? {
        WriteKeepsInv(s.(genHeapStats := false), SlotOf(p.value), SetCompactedSummary(CompactedSummary(kb)));
      }
  }

  lemma SummaryLineKeepsInv(s: State, t: Trace)
    requires Inv(s) && IsSummaryLine(t)
    ensures Inv(HandleSummaryLine(s, t).state)
  {
    match t
    case LoadTrace(p, v) => WriteSelectedKeepsInv(s, p, Some(SetLoad(v)), false);
    case LoadGenTrace(p, v) => WriteSelectedKeepsInv(s, p, Some(SetLoad(v)), false);
    case MmuTrace(p, v) => WriteSelectedKeepsInv(s, p, Some(SetMMU(v)), false);
    case MarkSummaryTrace(p, v) => WriteSelectedKeepsInv(s, p, Some(SetMarkSummary(v)), false);
    case NMethodsTrace(p, v) => WriteSelectedKeepsInv(s, p, Some(SetNMethodSummary(v)), false);
    case MetaspaceTrace(p, v) => WriteSelectedKeepsInv(s, p, Some(SetMetaspaceSummary(v)), false);
    case ForwardingUsageTrace(p, kb) => WriteSelectedKeepsInv(s, p, Some(SetForwardingUsage(kb)), false);
    case AgeTableTrace(p, v) => WriteSelectedKeepsInv(s, p, Some(AddPageAgeSummary(v)), false);
  }

  lemma PausePhaseKeepsInv(s: State, phase: Option<Phase>, name: string, d: int)
    requires Inv(s)
    ensures Inv(PausePhase(s, phase, name, d).state)
  {
    if phase.Some? {
      var k := SlotOf(phase.value);
      assert PausePhase(s, phase, name, d) == Pause(s, k, name, Timing(s.clock - d, d));
      PauseKeepsInv(s, k, name, Timing(s.clock - d, d));
    }
  }

  lemma ConcurrentPhaseKeepsInv(s: State, phase: Option<Phase>, name: string, d: int)
    requires Inv(s)
    ensures Inv(ConcurrentPhase(s, phase, name, d).state)
  {
    WriteSelectedKeepsInv(s, phase, TimingSetter(Lookup(ConcurrentNames, name), Timing(s.clock - d, d)), true);
  }

  lemma TimingLineKeepsInv(s: State, t: Trace)
    requires Inv(s) && IsTimingLine(t)
    ensures Inv(HandleTimingLine(s, t).state)
  {
    match t
    case PausePhaseTrace(p, name, d) => PausePhaseKeepsInv(s, p, name, d);
    case ConcurrentPhaseTrace(p, name, d) => ConcurrentPhaseKeepsInv(s, p, name, d);
    case RelocationSummaryTrace =>
    case ReferenceProcessingTrace =>
  }

  /** Every handler, whether or not it throws, leaves each slot holding an accumulator of its own phase. */
  lemma HandleKeepsInv(s: State, t: Trace)
    requires Inv(s)
    ensures Inv(Handle(s, t).state)
  {
    if IsCycleLine(t) {
      CycleLineKeepsInv(s, t);
    } else if IsTableLine(t) {
      TableLineKeepsInv(s, t);
    } else if IsSummaryLine(t) {
      SummaryLineKeepsInv(s, t);
    } else {
      TimingLineKeepsInv(s, t);
    }
  }

  /** Processing a line keeps the slot invariant. */
  lemma ProcessKeepsInv(s: State, line: Line)
    requires Inv(s)
    ensures Inv(ProcessSpec(s, line))
  {
    if !line.isHeader && Matched(line).Some? {
      HandleKeepsInv(s, Matched(line).value);
    }
  }

  /** The slot invariant holds after any log, from the initial state on. */
  lemma {:induction false} RunKeepsInv(s: State, log: seq<Received>)
    requires Inv(s)
    ensures Inv(Run(s, log))
    decreases |log|
  {
    if log != [] {
      ProcessKeepsInv(s.(clock := log[0].clock), log[0].line);
      RunKeepsInv(Receive(s, log[0]), log[1..]);
    }
  }

  /** The parser starts with every slot empty, so the invariant holds from its first line. */
  lemma InitialInv(generational: bool, timeOfFirstEvent: int)
    ensures Inv(Initial(generational, timeOfFirstEvent))
    ensures Initial(generational, timeOfFirstEvent).forwardReferences == Slots(None, None, None)
    ensures Initial(generational, timeOfFirstEvent).published == [] && Initial(generational, timeOfFirstEvent).missed == []
  {
  }

  // ----- Sinks -----

  /** The part of the state a handler may not touch, and the most it may add to the event sink. */
  predicate HandlerStep(s: State, s': State) {
    && s'.missed == s.missed
    && s'.generational == s.generational && s'.clock == s.clock && s'.timeOfFirstEvent == s.timeOfFirstEvent
    && s.published <= s'.published && |s'.published| <= |s.published| + 1
  }

  lemma CompleteStep(s: State, k: nat, memory: MemorySummary, d: Option<int>)
    requires k < 3
    ensures HandlerStep(s, Complete(s, k, memory, d).state)
  {
  }

  lemma CycleLineStep(s: State, t: Trace)
    requires IsCycleLine(t)
    ensures HandlerStep(s, HandleCycleLine(s, t).state)
  {
    match t
    case GenerationEndTrace(p, m, d) =>
      if p.Some? {
        CompleteStep(s.(genHeapStats := false), SlotOf(p.value), m, d);
      }
    case MemorySummaryTrace(id, m) =>
      if !s.generational {
        CompleteStep(s, SlotOf(Full), m, None);
      }
    case _ =>
  }

  lemma WriteSelectedStep(s: State, phase: Option<Phase>, w: Option<Setter>, report: bool)
    ensures WriteSelected(s, phase, w, report).state.published == s.published
    ensures HandlerStep(s, WriteSelected(s, phase, w, report).state)
  {
  }

  lemma TableLineStep(s: State, t: Trace)
    requires IsTableLine(t)
    ensures HandleTableLine(s, t).state.published == s.published
    ensures HandlerStep(s, HandleTableLine(s, t).state)
  {
    match t
    case OccupancyEntryTrace(p, name, v) => WriteSelectedStep(s, p, OccupancySetter(name, v), true);
    case ReclaimedPromotedTrace(p, name, v) => WriteSelectedStep(s, p, ReclaimedPromotedSetter(name, v), false);
    case ReferenceProcessingGenTrace(p, name, v) => WriteSelectedStep(s, p, ReferenceSetter(name, v), false);
    case PagesTrace(p, name, v) => WriteSelectedStep(s, p, PageSetter(name, v), false);
    case _ =>
  }

  lemma SummaryLineStep(s: State, t: Trace)
    requires IsSummaryLine(t)
    ensures HandleSummaryLine(s, t).state.published == s.published
    ensures HandlerStep(s, HandleSummaryLine(s, t).state)
  {
  }

  lemma PauseStep(s: State, k: nat, name: string, timing: Timing)
    requires k < 3
    ensures Pause(s, k, name, timing).state.published == s.published
    ensures HandlerStep(s, Pause(s, k, name, timing).state)
  {
  }

  lemma PausePhaseStep(s: State, phase: Option<Phase>, name: string, d: int)
    ensures PausePhase(s, phase, name, d).state.published == s.published
    ensures HandlerStep(s, PausePhase(s, phase, name, d).state)
  {
    if phase.Some? {
      var k := SlotOf(phase.value);
      assert PausePhase(s, phase, name, d) == Pause(s, k, name, Timing(s.clock - d, d));
      PauseStep(s, k, name, Timing(s.clock - d, d));
    }
  }

  lemma ConcurrentPhaseStep(s: State, phase: Option<Phase>, name: string, d: int)
    ensures ConcurrentPhase(s, phase, name, d).state.published == s.published
    ensures HandlerStep(s, ConcurrentPhase(s, phase, name, d).state)
  {
    WriteSelectedStep(s, phase, TimingSetter(Lookup(ConcurrentNames, name), Timing(s.clock - d, d)), true);
  }

  lemma TimingLineStep(s: State, t: Trace)
    requires IsTimingLine(t)
    ensures HandleTimingLine(s, t).state.published == s.published
    ensures HandlerStep(s, HandleTimingLine(s, t).state)
  {
    match t
    case PausePhaseTrace(p, name, d) => PausePhaseStep(s, p, name, d);
    case ConcurrentPhaseTrace(p, name, d) => ConcurrentPhaseStep(s, p, name, d);
    case RelocationSummaryTrace =>
    case ReferenceProcessingTrace =>
  }

  /**
   * Only the end of a cycle (generationEnd, the legacy memorySummary) and the
   * end of the log publish, one event each; no handler touches the missed
   * lines, the mode, the clock or the diary's first-event time.
   */
  lemma HandleStep(s: State, t: Trace)
    ensures HandlerStep(s, Handle(s, t).state)
    ensures Handle(s, t).state.published != s.published ==>
      t.GenerationEndTrace? || t.MemorySummaryTrace? || t.EndOfFileTrace?
  {
    if IsCycleLine(t) {
      CycleLineStep(s, t);
    } else if IsTableLine(t) {
      TableLineStep(s, t);
    } else if IsSummaryLine(t) {
      SummaryLineStep(s, t);
    } else {
      TimingLineStep(s, t);
    }
  }

  /**
   * process: a header line changes nothing; any other line is logged once
   * when no rule matches it or its handler throws, and is otherwise not
   * logged; at most one event is published.
   */
  lemma ProcessLogs(s: State, line: Line)
    ensures line.isHeader ==> ProcessSpec(s, line) == s
    ensures !line.isHeader && FirstMatchIndex(ParseRules, line.parse) == |ParseRules| ==>
      ProcessSpec(s, line).missed == s.missed + [line.text]
    ensures !line.isHeader && FirstMatchIndex(ParseRules, line.parse) < |ParseRules| ==>
      var r := ParseRules[FirstMatchIndex(ParseRules, line.parse)];
      var t := line.parse(r).value;
      var o := Handle(s, t);
      && Matched(line) == Some(t) && RuleOf(t) == r
      && ProcessSpec(s, line).missed == s.missed + (if o.threw then [line.text] else [])
    ensures s.missed <= ProcessSpec(s, line).missed && |ProcessSpec(s, line).missed| <= |s.missed| + 1
    ensures s.published <= ProcessSpec(s, line).published && |ProcessSpec(s, line).published| <= |s.published| + 1
    ensures ProcessSpec(s, line).generational == s.generational
    ensures ProcessSpec(s, line).timeOfFirstEvent == s.timeOfFirstEvent
  {
    MatchedRule(line);
    if !line.isHeader && Matched(line).Some? {
      DeliverStep(s, line.text, Matched(line).value);
    }
  }

  /** The captures process hands on are those of the first matching rule, and belong to that rule. */
  lemma MatchedRule(line: Line)
    ensures FirstMatchIndex(ParseRules, line.parse) < |ParseRules| ==>
      var r := ParseRules[FirstMatchIndex(ParseRules, line.parse)];
      Matched(line) == line.parse(r) && RuleOf(line.parse(r).value) == r
    ensures FirstMatchIndex(ParseRules, line.parse) == |ParseRules| ==> Matched(line).None?
  {
  }

  /** Delivering a trace logs the line exactly when its handler throws, and publishes at most one event. */
  lemma DeliverStep(s: State, text: string, t: Trace)
    ensures Deliver(s, text, Some(t)).missed == s.missed + (if Handle(s, t).threw then [text] else [])
    ensures s.published <= Deliver(s, text, Some(t)).published && |Deliver(s, text, Some(t)).published| <= |s.published| + 1
    ensures Deliver(s, text, Some(t)).generational == s.generational
    ensures Deliver(s, text, Some(t)).timeOfFirstEvent == s.timeOfFirstEvent
  {
    HandleStep(s, t);
  }

  /**
   * A whole log only appends to the two sinks, each line adding at most one
   * missed line and at most one event, and never changes the mode or the
   * diary's first-event time.
   */
  lemma {:induction false} RunSinks(s: State, log: seq<Received>)
    ensures s.missed <= Run(s, log).missed && |Run(s, log).missed| <= |s.missed| + |log|
    ensures s.published <= Run(s, log).published && |Run(s, log).published| <= |s.published| + |log|
    ensures Run(s, log).generational == s.generational && Run(s, log).timeOfFirstEvent == s.timeOfFirstEvent
    decreases |log|
  {
    if log != [] {
      var s1 := Receive(s, log[0]);
      ProcessLogs(s.(clock := log[0].clock), log[0].line);
      RunSinks(s1, log[1..]);
    }
  }

  // ----- Cycles -----

  /** cycleStart: a FULL cycle installs a fresh accumulator in the FULL slot; any other records its cause by id. */
  lemma CycleStartEffect(s: State, id: int, ct: Option<CycleType>, fullCause: Cause, cause: Cause)
    ensures !CycleStart(s, id, ct, fullCause, cause).threw
    ensures ct == Some(FullCycle) ==>
      var s' := CycleStart(s, id, ct, fullCause, cause).state;
      && s'.forwardReferences == s.forwardReferences.(fullSlot := Some(NewAccum(s.clock, id, fullCause, FullCycle, Full)))
      && s'.gcCauseMap == s.gcCauseMap
    ensures ct != Some(FullCycle) ==>
      var s' := CycleStart(s, id, ct, fullCause, cause).state;
      && s'.forwardReferences == s.forwardReferences
      && id in s'.gcCauseMap && s'.gcCauseMap[id] == cause
      && (forall j | j in s.gcCauseMap && j != id :: j in s'.gcCauseMap && s'.gcCauseMap[j] == s.gcCauseMap[j])
  {
  }

  /**
   * generationStart: outside generational mode nothing happens; otherwise the
   * slot of the line's phase gets a fresh accumulator started now, with the
   * cause cycleStart recorded for the id or, when there is none, the unknown
   * cause; the cause stays in the map, the other slots keep their references
   * and nothing else changes.
   */
  lemma GenerationStartEffect(s: State, id: int, p: Phase)
    ensures !s.generational ==> GenerationStart(s, id, Some(p)) == Done(s)
    ensures s.generational ==>
      var o := GenerationStart(s, id, Some(p));
      var a := o.state.forwardReferences.At(SlotOf(p)).value;
      && !o.threw && o.state.forwardReferences.At(SlotOf(p)).Some?
      && a.id == Identity(s.clock, id, if id in s.gcCauseMap then s.gcCauseMap[id] else UnknownGCCause, CycleTypeOf(p), p)
      && a.data == EmptyData() && a.gcDuration == None && a.pool == EmptyPool()
      && (forall j | 0 <= j < 3 && j != SlotOf(p) :: o.state.forwardReferences.At(j) == s.forwardReferences.At(j))
      && o.state.gcCauseMap == s.gcCauseMap
      && o.state.(forwardReferences := s.forwardReferences) == s
    ensures s.generational ==> GenerationStart(s, id, None).threw
  {
  }

  /** The event a generational cycle publishes when its generationEnd line arrives. */
  predicate EndedWith(s: State, s': State, e: ZGCCollection) {
    s'.published == s.published + [Collection(e)]
  }

  /**
   * A generational cycle from its three lines: cycleStart records the cause,
   * generationStart at clock `c1` opens the accumulator, and generationEnd at
   * clock `c2` publishes one event carrying that cause, id and phase, the
   * sizes of the end line, and as duration the line's own value when it has
   * one, else the time since generationStart.
   */
  lemma GenerationalCycle(s: State, id: int, ct: CycleType, cause: Cause, p: Phase, c1: int, c2: int,
                          memory: MemorySummary, d: Option<int>)
    requires s.generational && ct != FullCycle
    ensures
      var s1 := CycleStart(s, id, Some(ct), UnknownGCCause, cause).state;
      var s2 := GenerationStart(s1.(clock := c1), id, Some(p)).state;
      var o := GenerationEnd(s2.(clock := c2), Some(p), memory, d);
      && !o.threw && !o.state.genHeapStats
      && exists e ::
        && EndedWith(s, o.state, e)
        && e.cause == cause && e.gcId == id && e.phase == p && e.startTime == c1
        && e.cycleType == CycleTypeOf(p)
        && e.data.memorySummary == Some(memory)
        && e.duration == (if d.Some? then d.value else c2 - c1)
  {
    var s1 := CycleStart(s, id, Some(ct), UnknownGCCause, cause).state;
    var s2 := GenerationStart(s1.(clock := c1), id, Some(p)).state;
    var k := SlotOf(p);
    var a := s2.forwardReferences.At(k).value;
    assert a.id.gcCause == cause;
    var a1 := Finish(a, memory, d);
    var e := GetGCEvent(a1, c2);
    assert EndedWith(s, GenerationEnd(s2.(clock := c2), Some(p), memory, d).state, e);
  }

  /** generationEnd keeps the reference in its slot: the next line of the same phase still finds it. */
  lemma GenerationEndKeepsSlot(s: State, p: Phase, memory: MemorySummary, d: Option<int>)
    requires s.forwardReferences.At(SlotOf(p)).Some?
    ensures
      var o := GenerationEnd(s, Some(p), memory, d);
      var a := s.forwardReferences.At(SlotOf(p)).value;
      && !o.threw
      && o.state.forwardReferences.At(SlotOf(p)).Some?
      && o.state.forwardReferences.At(SlotOf(p)).value.id == a.id
      && o.state.forwardReferences.At(SlotOf(p)).value.data.memorySummary == Some(memory)
      && |o.state.published| == |s.published| + 1
  {
  }

  /**
   * memorySummary in generational mode forgets the cause recorded for the id,
   * publishes nothing and clears the capacity scratch triple; the slots keep
   * their references.
   */
  lemma MemorySummaryGenerational(s: State, id: int, memory: MemorySummary)
    requires s.generational
    ensures
      var o := MemorySummaryLine(s, id, memory);
      && !o.threw
      && id !in o.state.gcCauseMap
      && (forall j | j in s.gcCauseMap && j != id :: j in o.state.gcCauseMap && o.state.gcCauseMap[j] == s.gcCauseMap[j])
      && o.state.heapCapacity == Triple(0, 0, 0)
      && o.state.published == s.published && o.state.forwardReferences == s.forwardReferences
  {
  }

  /**
   * memorySummary outside generational mode ends the FULL cycle: it records
   * the sizes, publishes the event with the time since cycleStart as its
   * duration, and clears the capacity scratch triple. With no FULL cycle open
   * it throws before the reset, so the scratch triple survives.
   */
  lemma MemorySummaryLegacy(s: State, id: int, memory: MemorySummary)
    requires !s.generational
    ensures s.forwardReferences.fullSlot.None? ==> MemorySummaryLine(s, id, memory) == Thrown(s)
    ensures s.forwardReferences.fullSlot.Some? ==>
      var o := MemorySummaryLine(s, id, memory);
      var a := s.forwardReferences.fullSlot.value;
      && !o.threw
      && o.state.heapCapacity == Triple(0, 0, 0)
      && o.state.gcCauseMap == s.gcCauseMap
      && exists e ::
        && EndedWith(s, o.state, e)
        && e == GetGCEvent(Finish(a, memory, None), s.clock)
        && e.phase == a.id.phase && e.gcId == a.id.gcId && e.cause == a.id.gcCause
        && e.startTime == a.id.startTimeStamp && e.cycleType == a.id.cycleType
        && e.data == a.data.(memorySummary := Some(memory))
        && e.duration == (if a.gcDuration.Some? then a.gcDuration.value else s.clock - a.id.startTimeStamp)
  {
    if s.forwardReferences.fullSlot.Some? {
      var a := s.forwardReferences.fullSlot.value;
      var e := GetGCEvent(Finish(a, memory, None), s.clock);
      assert EndedWith(s, Complete(s, 0, memory, None).state, e);
    }
  }

  /**
   * A legacy (non-generational) cycle from its two lines: cycleStart of a
   * FULL cycle at clock `c1`, then memorySummary at clock `c2`, publish one
   * full collection carrying the start line's cause and id, start time `c1`,
   * the summary's sizes and duration `c2 - c1`.
   */
  lemma LegacyCycle(s: State, id: int, fullCause: Cause, cause: Cause, c1: int, c2: int, memory: MemorySummary)
    requires !s.generational
    ensures
      var s1 := CycleStart(s.(clock := c1), id, Some(FullCycle), fullCause, cause).state;
      var o := MemorySummaryLine(s1.(clock := c2), id, memory);
      && !o.threw && o.state.heapCapacity == Triple(0, 0, 0)
      && exists e ::
        && EndedWith(s, o.state, e)
        && e.kind == FullCollection && e.gcType == ZGCFull && e.phase == Full && e.cycleType == FullCycle
        && e.cause == fullCause && e.gcId == id && e.startTime == c1
        && e.data.memorySummary == Some(memory)
        && e.duration == c2 - c1
  {
    var s1 := CycleStart(s.(clock := c1), id, Some(FullCycle), fullCause, cause).state;
    var a := NewAccum(c1, id, fullCause, FullCycle, Full);
    assert s1.forwardReferences.fullSlot == Some(a);
    var e := GetGCEvent(Finish(a, memory, None), c2);
    assert EndedWith(s, MemorySummaryLine(s1.(clock := c2), id, memory).state, e);
  }

  // ----- Memory tables -----

  /**
   * The three capacity rows of one cycle: after "Min Capacity", "Max
   * Capacity" and "Soft Max Capacity" the accumulator holds the three values
   * as its heap-capacity summary; only the last row writes it.
   */
  lemma CapacityRows(s: State, p: Phase, min: int, max: int, softMax: int)
    requires s.forwardReferences.At(SlotOf(p)).Some?
    ensures
      var o1 := Capacity(s, Some(p), "Min Capacity", min);
      var o2 := Capacity(o1.state, Some(p), "Max Capacity", max);
      var o3 := Capacity(o2.state, Some(p), "Soft Max Capacity", softMax);
      && !o1.threw && !o2.threw && !o3.threw
      && o2.state.forwardReferences == s.forwardReferences
      && o3.state.forwardReferences.At(SlotOf(p)).value.data.heapCapacitySummary == Some(HeapCapacitySummary(min, max, softMax))
      && o3.state.heapCapacity == Triple(min, max, softMax)
  {
    LookupFinds(CapacityNames, 0);
    LookupFinds(CapacityNames, 1);
    LookupFinds(CapacityNames, 2);
  }

  /**
   * Each capacity row on its own: "Min Capacity" and "Max Capacity" write
   * scratch cell 0 or 1 and nothing else, without dereferencing the slot;
   * "Soft Max Capacity" writes cell 2 and then sets the accumulator's
   * capacity summary to the triple as it now stands, whatever earlier lines
   * left in cells 0 and 1; with an empty slot it has written cell 2 when it
   * throws.
   */
  lemma CapacityRowEffects(s: State, p: Phase, kb: int)
    ensures Capacity(s, Some(p), "Min Capacity", kb) == Done(s.(heapCapacity := s.heapCapacity.(c0 := kb)))
    ensures Capacity(s, Some(p), "Max Capacity", kb) == Done(s.(heapCapacity := s.heapCapacity.(c1 := kb)))
    ensures
      var s1 := s.(heapCapacity := s.heapCapacity.(c2 := kb));
      var r := s.forwardReferences.At(SlotOf(p));
      && (r.None? ==> Capacity(s, Some(p), "Soft Max Capacity", kb) == Thrown(s1))
      && (r.Some? ==>
            Capacity(s, Some(p), "Soft Max Capacity", kb) ==
            Done(Put(s1, SlotOf(p), r.value.(data := r.value.data.(heapCapacitySummary :=
              Some(HeapCapacitySummary(s.heapCapacity.c0, s.heapCapacity.c1, kb)))))))
  {
    LookupFinds(CapacityNames, 0);
    LookupFinds(CapacityNames, 1);
    LookupFinds(CapacityNames, 2);
  }

  /** A capacity row whose phase cannot be decoded throws before anything is written, whatever its name. */
  lemma CapacityUndecodable(s: State, name: string, kb: int)
    ensures Capacity(s, None, name, kb) == Thrown(s)
  {
  }

  /** A capacity row with any other name is ignored, and one with no phase throws before touching the scratch triple. */
  lemma CapacityOtherName(s: State, phase: Option<Phase>, name: string, kb: int)
    requires name != "Min Capacity" && name != "Max Capacity" && name != "Soft Max Capacity"
    ensures phase.Some? ==> Capacity(s, phase, name, kb) == Done(s)
    ensures phase.None? ==> Capacity(s, phase, name, kb) == Thrown(s)
  {
    LookupMisses(CapacityNames, name);
  }

  /**
   * The legacy size table: the "Capacity", "Free" and "Used" rows fill the
   * three columns of the builder, and the "Used" row then sets the four
   * mark/relocate summaries, each made of its column of the three rows.
   */
  lemma LegacySizeRows(s: State, p: Phase, capacity: OccupancySummary, free: OccupancySummary, used: OccupancySummary)
    requires !s.genHeapStats && s.forwardReferences.At(SlotOf(p)).Some?
    ensures
      var o1 := SizeEntry(s, Some(p), "Capacity", capacity);
      var o2 := SizeEntry(o1.state, Some(p), "Free", free);
      var o3 := SizeEntry(o2.state, Some(p), "Used", used);
      var d := o3.state.forwardReferences.At(SlotOf(p)).value.data;
      && !o1.threw && !o2.threw && !o3.threw
      && d.markStart == Some(MemoryPoolSummary(capacity.markStart, free.markStart, used.markStart))
      && d.markEnd == Some(MemoryPoolSummary(capacity.markEnd, free.markEnd, used.markEnd))
      && d.relocateStart == Some(MemoryPoolSummary(capacity.relocateStart, free.relocateStart, used.relocateStart))
      && d.relocateEnd == Some(MemoryPoolSummary(capacity.relocateEnd, free.relocateEnd, used.relocateEnd))
  {
    LookupFinds(SizeNames, 0);
    LookupFinds(SizeNames, 1);
    LookupFinds(SizeNames, 2);
  }

  /**
   * While the generation-stats flag is set, a size row never touches the
   * builder: "Used" sets the generation-used summary (not for a FULL cycle),
   * and any other name is reported as not yet implemented. Either way the
   * flag stays set: a size row does not end the generation-stats section.
   */
  lemma GenerationStatsSizeRow(s: State, p: Phase, name: string, row: OccupancySummary)
    requires s.genHeapStats && s.forwardReferences.At(SlotOf(p)).Some?
    ensures
      var o := SizeEntry(s, Some(p), name, row);
      var a := s.forwardReferences.At(SlotOf(p)).value;
      var a' := o.state.forwardReferences.At(SlotOf(p)).value;
      && !o.threw && a'.pool == a.pool && a'.id == a.id
      && (name == "Used" && p != Full ==> a'.data == a.data.(generationUsedSummary := Some(row)))
      && (name == "Used" && p == Full ==> a'.data == a.data)
      && (name != "Used" ==> o.state == s.(notYetImplemented := s.notYetImplemented + 1))
    ensures
      var o := SizeEntry(s, Some(p), name, row);
      var a := s.forwardReferences.At(SlotOf(p)).value;
      && (name == "Used" && p != Full ==>
            o.state == Put(s, SlotOf(p), a.(data := a.data.(generationUsedSummary := Some(row)))))
      && (name == "Used" && p == Full ==> o.state == s)
      && o.state.genHeapStats
  {
    if name == "Used" && p == Full {
      assert s.forwardReferences.With(SlotOf(p), Some(s.forwardReferences.At(SlotOf(p)).value)) == s.forwardReferences;
    }
  }

  /**
   * compacted leaves generation-stats mode even when its reference is
   * missing and the line throws; with a reference it records the compacted
   * size on it and changes nothing else.
   */
  lemma CompactedClearsFlag(s: State, phase: Option<Phase>, kb: int)
    ensures phase.Some? ==> !Compacted(s, phase, kb).state.genHeapStats
    ensures Compacted(s, phase, kb).threw <==> phase.None? || s.forwardReferences.At(SlotOf(phase.value)).None?
    ensures phase.None? ==> Compacted(s, phase, kb) == Thrown(s)
    ensures phase.Some? && s.forwardReferences.At(SlotOf(phase.value)).Some? ==>
      var a := s.forwardReferences.At(SlotOf(phase.value)).value;
      Compacted(s, phase, kb).state ==
        Put(s.(genHeapStats := false), SlotOf(phase.value), a.(data := a.data.(compactedSummary := Some(CompactedSummary(kb)))))
  {
  }

  /** occupancyEntry: "Live", "Allocated" and "Garbage" select their own summary; any other name selects none. */
  lemma OccupancyRowNames(name: string, v: SizeTriple)
    ensures OccupancySetter("Live", v) == Some(SetMarkedLiveSummary(v))
    ensures OccupancySetter("Allocated", v) == Some(SetAllocatedSummary(v))
    ensures OccupancySetter("Garbage", v) == Some(SetGarbageSummary(v))
    ensures name != "Live" && name != "Allocated" && name != "Garbage" ==> OccupancySetter(name, v) == None
  {
    LookupFinds(OccupancyNames, 0);
    LookupFinds(OccupancyNames, 1);
    LookupFinds(OccupancyNames, 2);
    if name != "Live" && name != "Allocated" && name != "Garbage" {
      LookupMisses(OccupancyNames, name);
    }
  }

  /** reclaimedPromoted: "Reclaimed" and "Promoted" select their own summary; any other name selects none. */
  lemma ReclaimedPromotedRowNames(name: string, v: SizePair)
    ensures ReclaimedPromotedSetter("Reclaimed", v) == Some(SetReclaimSummary(v))
    ensures ReclaimedPromotedSetter("Promoted", v) == Some(SetPromotedSummary(v))
    ensures name != "Reclaimed" && name != "Promoted" ==> ReclaimedPromotedSetter(name, v) == None
  {
    LookupFinds(ReclaimedPromotedNames, 0);
    LookupFinds(ReclaimedPromotedNames, 1);
    if name != "Reclaimed" && name != "Promoted" {
      LookupMisses(ReclaimedPromotedNames, name);
    }
  }

  /** pageSummary: "Small", "Medium" and "Large" select their own summary; any other name selects none. */
  lemma PageRowNames(name: string, v: PageSummary)
    ensures PageSetter("Small", v) == Some(SetSmallPageSummary(v))
    ensures PageSetter("Medium", v) == Some(SetMediumPageSummary(v))
    ensures PageSetter("Large", v) == Some(SetLargePageSummary(v))
    ensures name != "Small" && name != "Medium" && name != "Large" ==> PageSetter(name, v) == None
  {
    LookupFinds(PageNames, 0);
    LookupFinds(PageNames, 1);
    LookupFinds(PageNames, 2);
    if name != "Small" && name != "Medium" && name != "Large" {
      LookupMisses(PageNames, name);
    }
  }

  /** referenceProcessingGen: "Soft", "Weak", "Final" and "Phantom" select their own summary; any other name selects none. */
  lemma ReferenceRowNames(name: string, v: ReferenceSummary)
    ensures ReferenceSetter("Soft", v) == Some(SetSoftRefSummary(v))
    ensures ReferenceSetter("Weak", v) == Some(SetWeakRefSummary(v))
    ensures ReferenceSetter("Final", v) == Some(SetFinalRefSummary(v))
    ensures ReferenceSetter("Phantom", v) == Some(SetPhantomRefSummary(v))
    ensures name != "Soft" && name != "Weak" && name != "Final" && name != "Phantom" ==> ReferenceSetter(name, v) == None
  {
    LookupFinds(ReferenceNames, 0);
    LookupFinds(ReferenceNames, 1);
    LookupFinds(ReferenceNames, 2);
    LookupFinds(ReferenceNames, 3);
    if name != "Soft" && name != "Weak" && name != "Final" && name != "Phantom" {
      LookupMisses(ReferenceNames, name);
    }
  }

  /**
   * A table row with a decoded phase: a name the table knows writes its
   * setter on the phase's reference (throwing, and changing nothing, when
   * the slot is empty); a name it does not know never dereferences the slot
   * and is ignored or reported as not yet implemented.
   */
  lemma WriteSelectedEffect(s: State, p: Phase, w: Option<Setter>, report: bool)
    ensures w.Some? ==> WriteSelected(s, Some(p), w, report) == WriteFor(s, Some(p), w.value)
    ensures w.None? && report ==> WriteSelected(s, Some(p), w, report) == NotYetImplemented(s)
    ensures w.None? && !report ==> WriteSelected(s, Some(p), w, report) == Done(s)
    ensures WriteSelected(s, None, w, report) == Thrown(s)
  {
  }

  // ----- Phase timings -----

  /**
   * The "Mark Start" pause is recorded by an `if` of its own and then falls
   * into the next chain, which does not know the name, so the same line is
   * also reported as not yet implemented. "Mark Start (Major)" records the
   * same sub-phase without the report. Nothing else changes, and an empty
   * slot throws before anything is written.
   */
  lemma MarkStartPause(s: State, p: Phase, d: int)
    ensures s.forwardReferences.At(SlotOf(p)).None? ==> PausePhase(s, Some(p), "Mark Start", d) == Thrown(s)
    ensures s.forwardReferences.At(SlotOf(p)).None? ==> PausePhase(s, Some(p), "Mark Start (Major)", d) == Thrown(s)
    ensures s.forwardReferences.At(SlotOf(p)).Some? ==>
      var a := s.forwardReferences.At(SlotOf(p)).value;
      var s1 := Put(s, SlotOf(p), a.(data := a.data.(timings := a.data.timings[PauseMarkStart := Timing(s.clock - d, d)])));
      && PausePhase(s, Some(p), "Mark Start", d) == Done(s1.(notYetImplemented := s.notYetImplemented + 1))
      && PausePhase(s, Some(p), "Mark Start (Major)", d) == Done(s1)
  {
    LookupFinds(MarkStartNames, 0);
    LookupMisses(PauseNames, "Mark Start");
    LookupMisses(MarkStartNames, "Mark Start (Major)");
    LookupFinds(PauseNames, 0);
    assert PausePhase(s, Some(p), "Mark Start", d) == Pause(s, SlotOf(p), "Mark Start", Timing(s.clock - d, d));
    assert PausePhase(s, Some(p), "Mark Start (Major)", d) == Pause(s, SlotOf(p), "Mark Start (Major)", Timing(s.clock - d, d));
  }

  /**
   * "Mark End" and "Relocate Start" record (clock - duration, duration) for
   * their pause in the accumulator of the line's phase and change nothing
   * else; on an empty slot they throw and change nothing.
   */
  lemma PauseNamedEffect(s: State, p: Phase, name: string, d: int)
    requires name == "Mark End" || name == "Relocate Start"
    ensures s.forwardReferences.At(SlotOf(p)).None? ==> PausePhase(s, Some(p), name, d) == Thrown(s)
    ensures s.forwardReferences.At(SlotOf(p)).Some? ==>
      var a := s.forwardReferences.At(SlotOf(p)).value;
      var sub := if name == "Mark End" then PauseMarkEnd else PauseRelocateStart;
      PausePhase(s, Some(p), name, d) == Done(Put(s, SlotOf(p), a.(data := a.data.(timings := a.data.timings[sub := Timing(s.clock - d, d)]))))
  {
    LookupMisses(MarkStartNames, name);
    LookupFinds(PauseNames, 1);
    LookupFinds(PauseNames, 2);
    assert PausePhase(s, Some(p), name, d) == Pause(s, SlotOf(p), name, Timing(s.clock - d, d));
  }

  /** The two spellings of the non-strong reference phase record the same sub-phase. */
  lemma NonStrongAlias(s: State, phase: Option<Phase>, d: int)
    ensures ConcurrentPhase(s, phase, "Process Non-Strong", d) == ConcurrentPhase(s, phase, "Process Non-Strong References", d)
    ensures Lookup(ConcurrentNames, "Process Non-Strong") == Some(ConcurrentProcessNonStrongReferences)
  {
    LookupFinds(ConcurrentNames, 3);
    LookupFinds(ConcurrentNames, 4);
  }

  /**
   * A concurrent phase with a known name records (clock - duration, duration)
   * for its sub-phase and changes nothing else; an unknown name changes
   * nothing but the not-yet-implemented count.
   */
  lemma ConcurrentPhaseEffect(s: State, p: Phase, name: string, d: int)
    requires s.forwardReferences.At(SlotOf(p)).Some?
    ensures
      var o := ConcurrentPhase(s, Some(p), name, d);
      && !o.threw
      && (Lookup(ConcurrentNames, name).None? ==> o.state == s.(notYetImplemented := s.notYetImplemented + 1))
      && (Lookup(ConcurrentNames, name).Some? ==>
            var a := s.forwardReferences.At(SlotOf(p)).value;
            var sub := Lookup(ConcurrentNames, name).value;
            o.state == Put(s, SlotOf(p), a.(data := a.data.(timings := a.data.timings[sub := Timing(s.clock - d, d)]))))
  {
  }

  /** A pause name neither `if` knows is reported as not yet implemented without dereferencing the slot. */
  lemma PauseOtherName(s: State, phase: Option<Phase>, name: string, d: int)
    requires name != "Mark Start" && name != "Mark Start (Major)" && name != "Mark End" && name != "Relocate Start"
    ensures phase.Some? ==> PausePhase(s, phase, name, d) == NotYetImplemented(s)
    ensures phase.None? ==> PausePhase(s, phase, name, d) == Thrown(s)
  {
    LookupMisses(MarkStartNames, name);
    LookupMisses(PauseNames, name);
  }

  /**
   * Each legacy size row on its own: "Capacity" and "Free" write column 0 or
   * 1 of the builder's four arrays and leave the cycle's data alone; "Used"
   * writes column 2 and then sets the mark-start, mark-end, relocate-start
   * and relocate-end summaries, each to its array's three columns as they now
   * stand. A known row on an empty slot throws and changes nothing.
   */
  lemma SizeRowEffects(s: State, p: Phase, name: string, row: OccupancySummary)
    requires !s.genHeapStats && (name == "Capacity" || name == "Free" || name == "Used")
    ensures s.forwardReferences.At(SlotOf(p)).None? ==> SizeEntry(s, Some(p), name, row) == Thrown(s)
    ensures s.forwardReferences.At(SlotOf(p)).Some? ==>
      var a := s.forwardReferences.At(SlotOf(p)).value;
      var column := if name == "Capacity" then 0 else if name == "Free" then 1 else 2;
      var o := SizeEntry(s, Some(p), name, row);
      var a' := o.state.forwardReferences.At(SlotOf(p)).value;
      && !o.threw && o.state.forwardReferences.At(SlotOf(p)).Some?
      && o.state == Put(s, SlotOf(p), a')
      && a'.id == a.id && a'.gcDuration == a.gcDuration
      && a'.pool.markStart == a.pool.markStart.With(column, row.markStart)
      && a'.pool.markEnd == a.pool.markEnd.With(column, row.markEnd)
      && a'.pool.relocateStart == a.pool.relocateStart.With(column, row.relocateStart)
      && a'.pool.relocateEnd == a.pool.relocateEnd.With(column, row.relocateEnd)
      && (name != "Used" ==> a'.data == a.data)
      && (name == "Used" ==> a'.data == a.data.(
            markStart := Some(Build(a'.pool.markStart)), markEnd := Some(Build(a'.pool.markEnd)),
            relocateStart := Some(Build(a'.pool.relocateStart)), relocateEnd := Some(Build(a'.pool.relocateEnd))))
  {
    LookupFinds(SizeNames, 0);
    LookupFinds(SizeNames, 1);
    LookupFinds(SizeNames, 2);
  }

  /** Outside generation-stats mode a size row with any other name changes nothing. */
  lemma SizeEntryOtherName(s: State, p: Phase, name: string, row: OccupancySummary)
    requires !s.genHeapStats && name != "Capacity" && name != "Free" && name != "Used"
    ensures SizeEntry(s, Some(p), name, row) == Done(s)
  {
    LookupMisses(SizeNames, name);
  }

  // ----- Generation-stats mode -----

  /**
   * Only the generation-stats header turns the flag on, and it always does;
   * compacted and generationEnd lines with a decoded phase turn it off, and
   * nothing else does: a size row, in particular, leaves the flag set.
   */
  lemma GenHeapStatsSwitch(s: State, t: Trace)
    ensures !s.genHeapStats && Handle(s, t).state.genHeapStats ==> t.MarkGenHeapStatsTrace?
    ensures s.genHeapStats && !Handle(s, t).state.genHeapStats ==> t.CompactedTrace? || t.GenerationEndTrace?
    ensures !t.MarkGenHeapStatsTrace? && !t.CompactedTrace? && !t.GenerationEndTrace? ==>
      Handle(s, t).state.genHeapStats == s.genHeapStats
    ensures t.MarkGenHeapStatsTrace? ==> Handle(s, t).state.genHeapStats
    ensures t.CompactedTrace? && t.phase.Some? ==> !Handle(s, t).state.genHeapStats
    ensures t.GenerationEndTrace? && t.phase.Some? ==> !Handle(s, t).state.genHeapStats
  {
    if IsCycleLine(t) {
      CycleLineFlag(s, t);
    } else if IsTableLine(t) {
      TableLineFlag(s, t);
    } else if IsSummaryLine(t) {
      assert HandleSummaryLine(s, t).state.genHeapStats == s.genHeapStats;
    } else {
      TimingLineFlag(s, t);
    }
  }

  lemma CycleLineFlag(s: State, t: Trace)
    requires IsCycleLine(t)
    ensures !t.MarkGenHeapStatsTrace? ==> HandleCycleLine(s, t).state.genHeapStats ==> s.genHeapStats
    ensures t.MarkGenHeapStatsTrace? ==> HandleCycleLine(s, t).state.genHeapStats
    ensures t.GenerationEndTrace? && t.phase.Some? ==> !HandleCycleLine(s, t).state.genHeapStats
    ensures !t.GenerationEndTrace? && s.genHeapStats ==> HandleCycleLine(s, t).state.genHeapStats
  {
    match t
    case GenerationEndTrace(p, m, d) =>
      if p.Some? {
        CompleteStep(s.(genHeapStats := false), SlotOf(p.value), m, d);
      }
    case _ =>
  }

  lemma TableLineFlag(s: State, t: Trace)
    requires IsTableLine(t)
    ensures HandleTableLine(s, t).state.genHeapStats ==> s.genHeapStats
    ensures t.CompactedTrace? && t.phase.Some? ==> !HandleTableLine(s, t).state.genHeapStats
    ensures !t.CompactedTrace? ==> HandleTableLine(s, t).state.genHeapStats == s.genHeapStats
  {
  }

  lemma TimingLineFlag(s: State, t: Trace)
    requires IsTimingLine(t)
    ensures HandleTimingLine(s, t).state.genHeapStats == s.genHeapStats
  {
    match t
    case PausePhaseTrace(p, name, d) =>
      if p.Some? {
        var k := SlotOf(p.value);
        assert PausePhase(s, p, name, d) == Pause(s, k, name, Timing(s.clock - d, d));
      }
    case _ =>
  }

  // ----- Slot frames -----

  /** The identity of the cycle a slot holds, if it holds one. */
  function IdOf(r: Option<Accum>): Option<Identity> {
    if r.Some? then Some(r.value.id) else None
  }

  /**
   * The one slot a line may write: the slot of its phase, the FULL slot for
   * a FULL cycleStart and for memorySummary outside generational mode, and
   * none for the other lines.
   */
  function LineSlot(generational: bool, t: Trace): Option<nat> {
    match t
    case CycleStartTrace(_, ct, _, _) => if ct == Some(FullCycle) then Some(SlotOf(Full)) else None
    case MemorySummaryTrace(_, _) => if generational then None else Some(SlotOf(Full))
    case RelocationSummaryTrace => None
    case ReferenceProcessingTrace => None
    case EndOfFileTrace => None
    case MarkGenHeapStatsTrace => None
    case _ => SlotFor(t.phase)
  }

  /** Every slot but `k` is untouched, and every slot keeps the identity of its cycle (or stays empty). */
  predicate KeepsSlotsBut(s: State, s': State, k: Option<nat>) {
    forall j: nat | j < 3 ::
      && (k != Some(j) ==> s'.forwardReferences.At(j) == s.forwardReferences.At(j))
      && IdOf(s'.forwardReferences.At(j)) == IdOf(s.forwardReferences.At(j))
  }

  /** What a line may do to the slots: write only its own slot, and keep identities unless it starts a cycle. */
  predicate SlotsFramed(s: State, s': State, t: Trace) {
    if t.CycleStartTrace? || t.GenerationStartTrace? then
      forall j: nat | j < 3 && LineSlot(s.generational, t) != Some(j) ::
        s'.forwardReferences.At(j) == s.forwardReferences.At(j)
    else KeepsSlotsBut(s, s', LineSlot(s.generational, t))
  }

  lemma WriteFrames(s: State, k: nat, w: Setter)
    requires k < 3
    ensures KeepsSlotsBut(s, Write(s, k, w).state, Some(k))
  {
  }

  lemma WriteOrFrames(s: State, k: nat, w: Option<Setter>, report: bool)
    requires k < 3
    ensures KeepsSlotsBut(s, WriteOr(s, k, w, report).state, Some(k))
  {
    if w.Some? {
      WriteFrames(s, k, w.value);
    }
  }

  lemma WriteSelectedFrames(s: State, phase: Option<Phase>, w: Option<Setter>, report: bool)
    ensures KeepsSlotsBut(s, WriteSelected(s, phase, w, report).state, SlotFor(phase))
  {
    if phase.Some? {
      WriteOrFrames(s, SlotOf(phase.value), w, report);
    }
  }

  lemma CompleteFrames(s: State, k: nat, memory: MemorySummary, d: Option<int>)
    requires k < 3
    ensures KeepsSlotsBut(s, Complete(s, k, memory, d).state, Some(k))
  {
  }

  lemma CycleLineFrames(s: State, t: Trace)
    requires IsCycleLine(t)
    ensures SlotsFramed(s, HandleCycleLine(s, t).state, t)
  {
    match t
    case GenerationEndTrace(p, m, d) =>
      if p.Some? {
        CompleteFrames(s.(genHeapStats := false), SlotOf(p.value), m, d);
      }
    case MemorySummaryTrace(id, m) =>
      if !s.generational {
        CompleteFrames(s, SlotOf(Full), m, None);
      }
    case _ =>
  }

  lemma TableLineFrames(s: State, t: Trace)
    requires IsTableLine(t)
    ensures SlotsFramed(s, HandleTableLine(s, t).state, t)
  {
    match t
    case CapacityTrace(p, name, kb) =>
      if p.Some? {
        var c := Lookup(CapacityNames, name);
        if c.Some? && c.value == 2 {
          var s1 := s.(heapCapacity := s.heapCapacity.With(2, kb));
          WriteFrames(s1, SlotOf(p.value), SetHeapCapacitySummary(HeapCapacitySummary(s1.heapCapacity.c0, s1.heapCapacity.c1, s1.heapCapacity.c2)));
        }
      }
    case SizeEntryTrace(p, name, row) =>
      if p.Some? && s.genHeapStats {
        WriteOrFrames(s, SlotOf(p.value), if name == "Used" then Some(SetGenerationUsedSummary(p.value, row)) else None, true);
      }
    case OccupancyEntryTrace(p, name, v) => WriteSelectedFrames(s, p, OccupancySetter(name, v), true);
    case ReclaimedPromotedTrace(p, name, v) => WriteSelectedFrames(s, p, ReclaimedPromotedSetter(name, v), false);
    case ReferenceProcessingGenTrace(p, name, v) => WriteSelectedFrames(s, p, ReferenceSetter(name, v), false);
    case PagesTrace(p, name, v) => WriteSelectedFrames(s, p, PageSetter(name, v), false);
    case CompactedTrace(p, kb) =>
      if p.Some? {
        WriteFrames(s.(genHeapStats := false), SlotOf(p.value), SetCompactedSummary(CompactedSummary(kb)));
      }
  }

  lemma WriteForFrames(s: State, phase: Option<Phase>, w: Setter)
    ensures KeepsSlotsBut(s, WriteFor(s, phase, w).state, SlotFor(phase))
  {
    if phase.Some? {
      WriteFrames(s, SlotOf(phase.value), w);
    }
  }

  lemma SummaryLineFrames(s: State, t: Trace)
    requires IsSummaryLine(t)
    ensures SlotsFramed(s, HandleSummaryLine(s, t).state, t)
  {
    match t
    case LoadTrace(p, v) => WriteForFrames(s, p, SetLoad(v));
    case LoadGenTrace(p, v) => WriteForFrames(s, p, SetLoad(v));
    case MmuTrace(p, v) => WriteForFrames(s, p, SetMMU(v));
    case MarkSummaryTrace(p, v) => WriteForFrames(s, p, SetMarkSummary(v));
    case NMethodsTrace(p, v) => WriteForFrames(s, p, SetNMethodSummary(v));
    case MetaspaceTrace(p, v) => WriteForFrames(s, p, SetMetaspaceSummary(v));
    case ForwardingUsageTrace(p, kb) => WriteForFrames(s, p, SetForwardingUsage(kb));
    case AgeTableTrace(p, v) => WriteForFrames(s, p, AddPageAgeSummary(v));
  }

  lemma TimingLineFrames(s: State, t: Trace)
    requires IsTimingLine(t)
    ensures SlotsFramed(s, HandleTimingLine(s, t).state, t)
  {
    match t
    case PausePhaseTrace(p, name, d) =>
      if p.Some? {
        var k := SlotOf(p.value);
        var timing := Timing(s.clock - d, d);
        assert PausePhase(s, p, name, d) == Pause(s, k, name, timing);
        var first := MarkStart(s, k, name, timing);
        WriteOrFrames(s, k, TimingSetter(Lookup(MarkStartNames, name), timing), false);
        WriteOrFrames(first.state, k, TimingSetter(Lookup(PauseNames, name), timing), true);
      }
    case ConcurrentPhaseTrace(p, name, d) =>
      WriteSelectedFrames(s, p, TimingSetter(Lookup(ConcurrentNames, name), Timing(s.clock - d, d)), true);
    case _ =>
  }

  /**
   * A line writes at most the slot of its own phase, so lines of one phase
   * never disturb the cycles of the others, and only cycleStart and
   * generationStart lines change which cycle a slot holds.
   */
  lemma HandleFramesSlots(s: State, t: Trace)
    ensures SlotsFramed(s, Handle(s, t).state, t)
  {
    if IsCycleLine(t) {
      CycleLineFrames(s, t);
    } else if IsTableLine(t) {
      TableLineFrames(s, t);
    } else if IsSummaryLine(t) {
      SummaryLineFrames(s, t);
    } else {
      TimingLineFrames(s, t);
    }
  }

  /** No rule of the line could produce captures that write slot k. */
  predicate Spares(line: Line, generational: bool, k: nat) {
    forall r :: line.parse(r).Some? ==> LineSlot(generational, line.parse(r).value) != Some(k)
  }

  /** Neither start rule matches the line, so it cannot open a cycle. */
  predicate NoStartLine(line: Line) {
    line.parse(CycleStartRule).None? && line.parse(GenerationStartRule).None?
  }

  /** The slots after process are the slots after handling the matched line, or untouched. */
  lemma ProcessSlots(s: State, line: Line)
    ensures ProcessSpec(s, line).forwardReferences == s.forwardReferences
      || (Matched(line).Some? && ProcessSpec(s, line).forwardReferences == Handle(s, Matched(line).value).state.forwardReferences)
  {
  }

  /** process never writes a slot that no rule of the line can name. */
  lemma ProcessSparesSlot(s: State, line: Line, k: nat)
    requires k < 3
    ensures Spares(line, s.generational, k) ==>
      ProcessSpec(s, line).forwardReferences.At(k) == s.forwardReferences.At(k)
  {
    ProcessSlots(s, line);
    if Matched(line).Some? {
      var t := Matched(line).value;
      assert line.parse(ParseRules[FirstMatchIndex(ParseRules, line.parse)]) == Some(t);
      HandleFramesSlots(s, t);
    }
  }

  /** What a rule captures from a line that neither start rule matches is not a start trace. */
  lemma NoStartCapture(line: Line, r: Rule)
    requires NoStartLine(line) && line.parse(r).Some?
    ensures !line.parse(r).value.CycleStartTrace? && !line.parse(r).value.GenerationStartTrace?
  {
    StartRules(line.parse(r).value);
  }

  /** Only the cycleStart rule yields cycleStart captures, and only the generationStart rule generationStart ones. */
  lemma StartRules(t: Trace)
    ensures t.CycleStartTrace? <==> RuleOf(t) == CycleStartRule
    ensures t.GenerationStartTrace? <==> RuleOf(t) == GenerationStartRule
  {
  }

  /** A line that cannot start a cycle leaves every slot holding the same cycle. */
  lemma ProcessKeepsIdentities(s: State, line: Line)
    ensures NoStartLine(line) ==>
      forall j: nat | j < 3 :: IdOf(ProcessSpec(s, line).forwardReferences.At(j)) == IdOf(s.forwardReferences.At(j))
  {
    ProcessSlots(s, line);
    if NoStartLine(line) && Matched(line).Some? {
      var t := Matched(line).value;
      NoStartCapture(line, ParseRules[FirstMatchIndex(ParseRules, line.parse)]);
      HandleFramesSlots(s, t);
      assert KeepsSlotsBut(s, Handle(s, t).state, LineSlot(s.generational, t));
    }
  }

  /** Receiving a line never switches the mode. */
  lemma ReceiveKeepsMode(s: State, r: Received)
    ensures Receive(s, r).generational == s.generational
  {
    ProcessLogs(s.(clock := r.clock), r.line);
  }

  /** Over a whole log, a slot that no line of the log can name keeps its accumulator. */
  lemma {:induction false} RunSparesSlot(s: State, log: seq<Received>, k: nat)
    requires k < 3
    requires forall i | 0 <= i < |log| :: Spares(log[i].line, s.generational, k)
    ensures Run(s, log).forwardReferences.At(k) == s.forwardReferences.At(k)
    decreases |log|
  {
    if log != [] {
      ProcessSparesSlot(s.(clock := log[0].clock), log[0].line, k);
      var s1 := Receive(s, log[0]);
      ReceiveKeepsMode(s, log[0]);
      forall i | 0 <= i < |log[1..]|
        ensures Spares(log[1..][i].line, s1.generational, k)
      {
        assert log[1..][i] == log[i + 1];
      }
      RunSparesSlot(s1, log[1..], k);
    }
  }

  /**
   * Over a whole log in which no line starts a cycle, every slot keeps the
   * identity of the cycle it held (or stays empty), however many lines come
   * between.
   */
  lemma {:induction false} RunKeepsIdentities(s: State, log: seq<Received>)
    requires forall i | 0 <= i < |log| :: NoStartLine(log[i].line)
    ensures forall j: nat | j < 3 :: IdOf(Run(s, log).forwardReferences.At(j)) == IdOf(s.forwardReferences.At(j))
    decreases |log|
  {
    if log != [] {
      ProcessKeepsIdentities(s.(clock := log[0].clock), log[0].line);
      forall i | 0 <= i < |log[1..]|
        ensures NoStartLine(log[1..][i].line)
      {
        assert log[1..][i] == log[i + 1];
      }
      RunKeepsIdentities(Receive(s, log[0]), log[1..]);
    }
  }
}
