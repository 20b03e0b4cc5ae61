/**
 * The per-cycle objects of the parser: the memory-pool summary builder and
 * the forward reference that accumulates one cycle's fields. Each setter is
 * proved to change the object exactly as the setter of ZGCModel changes its
 * value.
 */
module ZGCForwardReferences {
  import opened ZGCTypes
  import opened ZGCModel

  /** A three-element array as a value. */
  function TripleOf(a: array<int>): Triple
    reads a
    requires a.Length == 3
  {
    Triple(a[0], a[1], a[2])
  }

  /** ZGCMemoryPoolSummaryBuilder: four arrays of three columns (capacity, free, used). */
  class MemoryPoolSummaryBuilder {
    const markStart: array<int>
    const markEnd: array<int>
    const relocateStart: array<int>
    const relocateEnd: array<int>

    function Repr(): set<object> {
      {markStart, markEnd, relocateStart, relocateEnd}
    }

    /** Four distinct arrays of three columns each. */
    ghost predicate Valid() {
      && markStart.Length == 3 && markEnd.Length == 3
      && relocateStart.Length == 3 && relocateEnd.Length == 3
      && markStart != markEnd && markStart != relocateStart && markStart != relocateEnd
      && markEnd != relocateStart && markEnd != relocateEnd && relocateStart != relocateEnd
    }

    /** The four arrays as a value. */
    function Contents(): Pool
      reads Repr()
      requires Valid()
    {
      Pool(TripleOf(markStart), TripleOf(markEnd), TripleOf(relocateStart), TripleOf(relocateEnd))
    }

    constructor ()
      ensures Valid() && fresh(Repr())
      ensures Contents() == EmptyPool()
    {
      markStart := new int[3](_ => 0);
      markEnd := new int[3](_ => 0);
      relocateStart := new int[3](_ => 0);
      relocateEnd := new int[3](_ => 0);
    }

    method SetMarkStart(index: int, v: int)
      requires Valid() && 0 <= index < 3
      modifies markStart
      ensures Contents() == old(Contents()).(markStart := old(Contents()).markStart.With(index, v))
    {
      markStart[index] := v;
    }

    method SetMarkEnd(index: int, v: int)
      requires Valid() && 0 <= index < 3
      modifies markEnd
      ensures Contents() == old(Contents()).(markEnd := old(Contents()).markEnd.With(index, v))
    {
      markEnd[index] := v;
    }

    method SetRelocateStart(index: int, v: int)
      requires Valid() && 0 <= index < 3
      modifies relocateStart
      ensures Contents() == old(Contents()).(relocateStart := old(Contents()).relocateStart.With(index, v))
    {
      relocateStart[index] := v;
    }

    method SetRelocateEnd(index: int, v: int)
      requires Valid() && 0 <= index < 3
      modifies relocateEnd
      ensures Contents() == old(Contents()).(relocateEnd := old(Contents()).relocateEnd.With(index, v))
    {
      relocateEnd[index] := v;
    }

    method BuildMarkStart() returns (m: MemoryPoolSummary)
      requires Valid()
      ensures m == Build(Contents().markStart)
    {
      m := MemoryPoolSummary(markStart[0], markStart[1], markStart[2]);
    }

    method BuildMarkEnd() returns (m: MemoryPoolSummary)
      requires Valid()
      ensures m == Build(Contents().markEnd)
    {
      m := MemoryPoolSummary(markEnd[0], markEnd[1], markEnd[2]);
    }

    method BuildRelocateStart() returns (m: MemoryPoolSummary)
      requires Valid()
      ensures m == Build(Contents().relocateStart)
    {
      m := MemoryPoolSummary(relocateStart[0], relocateStart[1], relocateStart[2]);
    }

    method BuildRelocateEnd() returns (m: MemoryPoolSummary)
      requires Valid()
      ensures m == Build(Contents().relocateEnd)
    {
      m := MemoryPoolSummary(relocateEnd[0], relocateEnd[1], relocateEnd[2]);
    }
  }

  /**
   * ZGCForwardReference: the accumulator of one in-flight cycle. Its identity
   * is fixed at construction. The fields its setters write (sub-phase
   * timings, summaries, load, MMU, forwarding usage, age table) are held
   * together in the record `data`, each setter replacing one component; the
   * sub-phase start/duration pairs are kept in one map keyed by sub-phase.
   */
  class ForwardReference {
    const startTimeStamp: int
    const gcCause: Cause
    const cycleType: CycleType
    const phase: Phase
    const gcId: int
    var data: CycleData
    var gcDuration: Option<int>
    const memoryPoolSummaryBuilder: MemoryPoolSummaryBuilder

    function Repr(): set<object> {
      {this} + memoryPoolSummaryBuilder.Repr()
    }

    ghost predicate Valid() {
      memoryPoolSummaryBuilder.Valid()
    }

    /** The accumulator as a value. */
    function Value(): Accum
      reads Repr()
      requires Valid()
    {
      Accum(Identity(startTimeStamp, gcId, gcCause, cycleType, phase), data, gcDuration,
            memoryPoolSummaryBuilder.Contents())
    }

    constructor (dateTimeStamp: int, gcId: int, cause: Cause, cycleType: CycleType, phase: Phase)
      ensures Valid() && fresh(Repr())
      ensures Value() == NewAccum(dateTimeStamp, gcId, cause, cycleType, phase)
    {
      startTimeStamp := dateTimeStamp;
      this.gcId := gcId;
      gcCause := cause;
      this.cycleType := cycleType;
      this.phase := phase;
      data := EmptyData();
      gcDuration := None;
      memoryPoolSummaryBuilder := new MemoryPoolSummaryBuilder();
    }

    /**
     * The setter selected by `w`. Every setter but two stores its argument
     * in its own field; those two have logic of their own.
     */
    method Set(w: Setter)
      modifies this
      ensures data == Apply(old(data), w) && gcDuration == old(gcDuration)
    {
      match w
      case SetGenerationUsedSummary(p, v) => SetGenerationUsedSummary(p, v);
      case AddPageAgeSummary(v) => AddPageAgeSummary(v);
      case _ => data := Apply(data, w);
    }

    /** A FULL cycle has no generation, so its generation-used summary is never written. */
    method SetGenerationUsedSummary(p: Phase, summary: OccupancySummary)
      modifies this
      ensures p == Full ==> data == old(data)
      ensures p != Full ==> data == old(data).(generationUsedSummary := Some(summary))
      ensures gcDuration == old(gcDuration)
    {
      match p {
        case Full =>
        case MajorYoung => data := data.(generationUsedSummary := Some(summary));
        case MajorOld => data := data.(generationUsedSummary := Some(summary));
        case MinorYoung => data := data.(generationUsedSummary := Some(summary));
      }
    }

    /** Appends to the age table, creating it on first use. */
    method AddPageAgeSummary(summary: PageAgeSummary)
      modifies this
      ensures data == old(data).(ageTableSummary := Some(old(data).ageTableSummary.GetOr([]) + [summary]))
      ensures gcDuration == old(gcDuration)
    {
      if data.ageTableSummary.None? {
        data := data.(ageTableSummary := Some([]));
      }
      data := data.(ageTableSummary := Some(data.ageTableSummary.value + [summary]));
    }

    method SetGcDuration(d: int)
      modifies this
      ensures data == old(data) && gcDuration == Some(d)
    {
      gcDuration := Some(d);
    }

    /** getGCEVent: the recorded duration if there is one, else the time elapsed since the start. */
    function GetGCEvent(endTime: int): (e: ZGCCollection)
      reads Repr()
      requires Valid()
      ensures e == ZGCModel.GetGCEvent(Value(), endTime)
    {
      var duration := if gcDuration != None then gcDuration.value else endTime - startTimeStamp;
      match phase
      case Full => ZGCCollection(FullCollection, ZGCFull, startTimeStamp, gcCause, duration, gcId, cycleType, phase, data)
      case MinorYoung => ZGCCollection(YoungCollection, ZGCMinorYoung, startTimeStamp, gcCause, duration, gcId, cycleType, phase, data)
      case MajorYoung => ZGCCollection(YoungCollection, ZGCMajorYoung, startTimeStamp, gcCause, duration, gcId, cycleType, phase, data)
      case MajorOld => ZGCCollection(OldCollection, ZGCMajorOld, startTimeStamp, gcCause, duration, gcId, cycleType, phase, data)
    }
  }
}

/**
 * The parser as the source builds it: objects whose methods update their
 * fields in place. Each method is proved against the transition function of
 * ZGCModel that specifies it: the abstraction `Abs()` of the parser after the
 * call, together with whether the call threw, is exactly what the function
 * computes from the abstraction before it.
 */
module ZGCParserClasses {
  import opened ZGCTypes
  import opened ZGCModel
  import opened ZGCForwardReferences

  /**
   * ZGCParser: three forward-reference slots (FULL, young, old), the causes
   * of announced generational cycles by id, the heap-capacity scratch
   * triple, the generation-stats flag, and the two sinks: published events
   * and missed lines. `generational`, `timeOfFirstEvent` and `clock` are what
   * the diary and the base class hand over.
   */
  class ZGCParser {
    const forwardReferences: array<ForwardReference?>
    var gcCauseMap: map<int, Cause>
    const heapCapacity: array<int>
    /** The rule table, in the order the rules are tried. */
    const parseRules: seq<Rule> := ParseRules
    var genHeapStats: bool
    const generational: bool
    var clock: int
    const timeOfFirstEvent: int
    var published: seq<JvmEvent>
    var missed: seq<string>
    var notYetImplemented: nat
    ghost var Repr: set<object>
    /** The three slots as values. */
    ghost var slots: Slots

    /**
     * Slot i is empty, or holds a reference of its own phase, owned by the
     * parser, apart from the capacity array, whose value the ghost slot holds.
     */
    ghost predicate SlotValid(i: int)
      reads this`Repr, this`slots, forwardReferences
      reads if 0 <= i < forwardReferences.Length && forwardReferences[i] != null then forwardReferences[i].Repr() else {}
      requires 0 <= i < forwardReferences.Length && i < 3
    {
      var r := forwardReferences[i];
      if r == null then slots.At(i) == None
      else
        && r.Valid() && r.Repr() <= Repr && heapCapacity !in r.Repr() && SlotOf(r.phase) == i
        && slots.At(i) == Some(r.Value())
    }

    /** Two slots never share a reference or any part of one. */
    ghost predicate Apart(i: int, j: int)
      reads forwardReferences
      requires 0 <= i < forwardReferences.Length && 0 <= j < forwardReferences.Length
    {
      forwardReferences[i] != null && forwardReferences[j] != null ==>
        forwardReferences[i].Repr() !! forwardReferences[j].Repr()
    }

    /** Every reference the slots hold lies inside the parser's footprint. */
    ghost predicate Owned()
      reads this`Repr, forwardReferences
      requires forwardReferences.Length == 3
    {
      forall i | 0 <= i < 3 :: forwardReferences[i] != null ==> forwardReferences[i].Repr() <= Repr
    }

    ghost predicate Valid()
      reads this`Repr, this`slots, Repr
    {
      && forwardReferences in Repr && heapCapacity in Repr && this !in Repr
      && forwardReferences.Length == 3 && heapCapacity.Length == 3
      && Owned()
      && (forall i {:trigger forwardReferences[i]} | 0 <= i < 3 :: SlotValid(i))
      && (forall i, j | 0 <= i < 3 && 0 <= j < 3 && i != j :: Apart(i, j))
    }

    /** The parser as a value. */
    ghost function Abs(): State
      reads this, heapCapacity
      requires heapCapacity.Length == 3
    {
      State(slots, gcCauseMap, TripleOf(heapCapacity), genHeapStats,
            generational, clock, timeOfFirstEvent, published, missed, notYetImplemented)
    }

    /** Each slot of a valid parser holds a cycle of its own phase. */
    lemma AbsInv()
      requires Valid()
      ensures Inv(Abs())
    {
      assert SlotValid(0) && SlotValid(1) && SlotValid(2);
    }

    constructor (generational: bool, timeOfFirstEvent: int)
      ensures Valid() && fresh(Repr)
      ensures Abs() == Initial(generational, timeOfFirstEvent)
    {
      forwardReferences := new ForwardReference?[3](_ => null);
      gcCauseMap := map[];
      heapCapacity := new int[3](_ => 0);
      genHeapStats := false;
      this.generational := generational;
      clock := 0;
      this.timeOfFirstEvent := timeOfFirstEvent;
      published := [];
      missed := [];
      notYetImplemented := 0;
      new;
      Repr := {forwardReferences, heapCapacity};
      slots := Slots(None, None, None);
      forall i | 0 <= i < 3
        ensures SlotValid(i)
      {
        assert forwardReferences[i] == null;
      }
    }

    /** getForwardRefForPhase: the reference of a phase's slot; None where the source throws. */
    method GetForwardRefForPhase(phase: Option<Phase>) returns (ref: Option<ForwardReference?>)
      requires Valid()
      ensures ref.None? <==> phase.None?
      ensures ref.Some? ==> ref.value == forwardReferences[SlotOf(phase.value)]
    {
      match phase
      case None => ref := None;
      case Some(p) =>
        match p
        case Full => ref := Some(forwardReferences[0]);
        case MajorYoung => ref := Some(forwardReferences[1]);
        case MinorYoung => ref := Some(forwardReferences[1]);
        case MajorOld => ref := Some(forwardReferences[2]);
    }

    /** setForwardRefForPhase: installs a reference in its phase's slot, replacing what was there. */
    method SetForwardRefForPhase(phase: Phase, ref: ForwardReference)
      requires Valid() && ref.Valid() && ref.phase == phase && ref.Repr() !! Repr
      modifies this, forwardReferences
      ensures Valid() && Repr == old(Repr) + ref.Repr()
      ensures Abs() == Put(old(Abs()), SlotOf(phase), ref.Value())
    {
      var k := SlotOf(phase);
      forwardReferences[k] := ref;
      Repr := Repr + ref.Repr();
      slots := slots.With(k, Some(ref.Value()));
      SlotReplaced(k);
    }

    /**
     * Slot k now holds a reference of its phase whose footprint was apart
     * from the parser's, the parser's footprint grew by it and nothing else
     * changed, and the ghost slot follows the reference: the parser is valid
     * again.
     */
    twostate lemma SlotReplaced(k: int)
      requires old(Valid()) && 0 <= k < 3
      requires forall i | 0 <= i < 3 && i != k :: forwardReferences[i] == old(forwardReferences[i])
      requires forwardReferences[k] != null && forwardReferences[k].Valid() && SlotOf(forwardReferences[k].phase) == k
      requires forwardReferences[k].Repr() !! old(Repr) && Repr == old(Repr) + forwardReferences[k].Repr()
      requires unchanged(old(Repr) - {forwardReferences, this})
      requires slots == old(slots).With(k, Some(forwardReferences[k].Value()))
      ensures Valid()
    {
      forall i | 0 <= i < 3
        ensures SlotValid(i)
      {
        if i != k {
          assert old(SlotValid(i));
        }
      }
      forall i, j | 0 <= i < 3 && 0 <= j < 3 && i != j
        ensures Apart(i, j)
      {
        if i != k && j != k {
          assert old(Apart(i, j));
        } else if i != k {
          assert old(SlotValid(i));
        } else {
          assert old(SlotValid(j));
        }
      }
    }

    /**
     * The reference of slot k changed inside its own footprint, nothing else
     * of the parser's footprint changed, and the ghost slot follows the
     * reference: the parser is valid again.
     */
    twostate lemma SlotUpdated(k: int)
      requires old(Valid()) && 0 <= k < 3
      requires Repr == old(Repr) && unchanged(forwardReferences)
      requires forwardReferences[k] != null && forwardReferences[k].Valid()
      requires unchanged(old(Repr) - forwardReferences[k].Repr() - {this})
      requires slots == old(slots).With(k, Some(forwardReferences[k].Value()))
      ensures Valid()
    {
      assert old(SlotValid(k));
      forall i | 0 <= i < 3
        ensures SlotValid(i)
      {
        if i != k {
          assert old(SlotValid(i)) && Apart(i, k);
        }
      }
    }

    /**
     * `ref.set…(…)` on the reference of slot k: a null reference throws
     * before anything changes.
     */
    method SetOn(ref: ForwardReference?, ghost k: int, w: Setter) returns (threw: bool)
      requires Valid() && 0 <= k < 3 && ref == forwardReferences[k]
      modifies this, Repr
      ensures Valid() && Repr == old(Repr) && unchanged(forwardReferences)
      ensures Outcome(Abs(), threw) == Write(old(Abs()), k, w)
    {
      if ref == null {
        return true;
      }
      assert SlotValid(k);
      ref.Set(w);
      slots := slots.With(k, Some(ref.Value()));
      SlotUpdated(k);
      threw := false;
    }

    /** Calls the setter the line's name selected, or handles a name that selects none. */
    method WriteOn(ref: ForwardReference?, ghost k: int, w: Option<Setter>, report: bool) returns (threw: bool)
      requires Valid() && 0 <= k < 3 && ref == forwardReferences[k]
      modifies this, Repr
      ensures Valid() && Repr == old(Repr) && unchanged(forwardReferences)
      ensures Outcome(Abs(), threw) == WriteOr(old(Abs()), k, w, report)
    {
      match w
      case Some(x) =>
        threw := SetOn(ref, k, x);
      case None =>
        if report {
          NotYetImplemented();
        }
        threw := false;
    }

    /** Stores one cell of the heap-capacity scratch array. */
    method SetCapacity(i: int, kb: int)
      requires Valid() && 0 <= i < 3
      modifies heapCapacity
      ensures Valid()
      ensures Abs() == old(Abs()).(heapCapacity := old(Abs()).heapCapacity.With(i, kb))
    {
      heapCapacity[i] := kb;
      forall j | 0 <= j < 3
        ensures SlotValid(j)
      {
        assert old(SlotValid(j));
      }
    }

    /** `Arrays.fill(heapCapacity, 0L)`. */
    method ResetHeapCapacity()
      requires Valid()
      modifies heapCapacity
      ensures Valid()
      ensures Abs() == old(Abs()).(heapCapacity := Triple(0, 0, 0))
    {
      heapCapacity[0] := 0;
      heapCapacity[1] := 0;
      heapCapacity[2] := 0;
      forall j | 0 <= j < 3
        ensures SlotValid(j)
      {
        assert old(SlotValid(j));
      }
    }

    /** captureAtIndex: one column of the reference's builder; a null reference throws. */
    method CaptureAtIndex(ref: ForwardReference?, ghost k: int, index: int, row: OccupancySummary) returns (threw: bool)
      requires Valid() && 0 <= k < 3 && ref == forwardReferences[k] && 0 <= index < 3
      modifies this, Repr
      ensures Valid() && Repr == old(Repr) && unchanged(forwardReferences)
      ensures threw <==> ref == null
      ensures !threw ==> Abs() == Put(old(Abs()), k, old(ref.Value()).(pool := ZGCModel.CaptureAtIndex(old(ref.Value()).pool, index, row)))
      ensures threw ==> Abs() == old(Abs())
    {
      if ref == null {
        return true;
      }
      assert SlotValid(k);
      var b := ref.memoryPoolSummaryBuilder;
      b.SetMarkStart(index, row.markStart);
      b.SetMarkEnd(index, row.markEnd);
      b.SetRelocateStart(index, row.relocateStart);
      b.SetRelocateEnd(index, row.relocateEnd);
      slots := slots.With(k, Some(ref.Value()));
      SlotUpdated(k);
      threw := false;
    }

    /** The "Used" row: the four summaries built from the builder, set on the non-null reference of slot k. */
    method BuildPoolSummaries(ref: ForwardReference, ghost k: int)
      requires Valid() && 0 <= k < 3 && ref == forwardReferences[k]
      modifies this, Repr
      ensures Valid() && Repr == old(Repr) && unchanged(forwardReferences)
      ensures Abs() == Put(old(Abs()), k, WithPoolSummaries(old(ref.Value())))
    {
      assert SlotValid(k);
      var b := ref.memoryPoolSummaryBuilder;
      var markStart := b.BuildMarkStart();
      var markEnd := b.BuildMarkEnd();
      var relocateStart := b.BuildRelocateStart();
      var relocateEnd := b.BuildRelocateEnd();
      ref.Set(SetMarkStart(markStart));
      ref.Set(SetMarkEnd(markEnd));
      ref.Set(SetRelocateStart(relocateStart));
      ref.Set(SetRelocateEnd(relocateEnd));
      slots := slots.With(k, Some(ref.Value()));
      SlotUpdated(k);
    }

    /** One row of the legacy matrix into column `index` of the reference of slot k. */
    method Capture(ref: ForwardReference?, ghost k: int, index: int, row: OccupancySummary) returns (threw: bool)
      requires Valid() && 0 <= k < 3 && ref == forwardReferences[k] && 0 <= index < 3
      modifies this, Repr
      ensures Valid() && Repr == old(Repr) && unchanged(forwardReferences)
      ensures Outcome(Abs(), threw) == ZGCModel.Capture(old(Abs()), k, index, row)
    {
      threw := CaptureAtIndex(ref, k, index, row);
      if !threw && index == 2 {
        BuildPoolSummaries(ref, k);
      }
    }

    /** setMemorySummary, then setGcDuration when a duration is given, on the non-null reference of slot k. */
    method FinishOn(ref: ForwardReference, ghost k: int, memory: MemorySummary, explicitDuration: Option<int>)
      requires Valid() && 0 <= k < 3 && ref == forwardReferences[k]
      modifies this, Repr
      ensures Valid() && Repr == old(Repr) && unchanged(forwardReferences)
      ensures Abs() == Put(old(Abs()), k, Finish(old(ref.Value()), memory, explicitDuration))
    {
      assert SlotValid(k);
      ref.Set(SetMemorySummary(memory));
      if explicitDuration.Some? {
        ref.SetGcDuration(explicitDuration.value);
      }
      slots := slots.With(k, Some(ref.Value()));
      SlotUpdated(k);
    }

    /** The end of a cycle: finish the reference of slot k and publish its event; a null reference throws. */
    method Complete(ref: ForwardReference?, ghost k: int, memory: MemorySummary, explicitDuration: Option<int>) returns (threw: bool)
      requires Valid() && 0 <= k < 3 && ref == forwardReferences[k]
      modifies this, Repr
      ensures Valid() && Repr == old(Repr) && unchanged(forwardReferences)
      ensures Outcome(Abs(), threw) == ZGCModel.Complete(old(Abs()), k, memory, explicitDuration)
    {
      if ref == null {
        return true;
      }
      FinishOn(ref, k, memory, explicitDuration);
      assert SlotValid(k);
      Publish(Collection(ref.GetGCEvent(clock)));
      threw := false;
    }

    method Publish(e: JvmEvent)
      modifies this
      ensures Repr == old(Repr) && slots == old(slots)
      ensures published == old(published) + [e]
      ensures gcCauseMap == old(gcCauseMap) && genHeapStats == old(genHeapStats) && clock == old(clock)
      ensures missed == old(missed) && notYetImplemented == old(notYetImplemented)
    {
      published := published + [e];
    }

    /** `log`: the line goes to the missed-lines sink. */
    method Log(line: string)
      modifies this
      ensures Repr == old(Repr) && slots == old(slots)
      ensures missed == old(missed) + [line]
      ensures gcCauseMap == old(gcCauseMap) && genHeapStats == old(genHeapStats) && clock == old(clock)
      ensures published == old(published) && notYetImplemented == old(notYetImplemented)
    {
      missed := missed + [line];
    }

    /** `trace.notYetImplemented()`, counted. */
    method NotYetImplemented()
      modifies this
      ensures Repr == old(Repr) && slots == old(slots)
      ensures notYetImplemented == old(notYetImplemented) + 1
      ensures gcCauseMap == old(gcCauseMap) && genHeapStats == old(genHeapStats) && clock == old(clock)
      ensures published == old(published) && missed == old(missed)
    {
      notYetImplemented := notYetImplemented + 1;
    }

    // ----- Line handlers -----

    method CycleStart(gcId: int, cycleType: Option<CycleType>, fullCause: Cause, cause: Cause) returns (threw: bool)
      requires Valid()
      modifies this, Repr
      ensures Valid() && fresh(Repr - old(Repr))
      ensures Outcome(Abs(), threw) == ZGCModel.CycleStart(old(Abs()), gcId, cycleType, fullCause, cause)
    {
      if cycleType == Some(FullCycle) {
        var ref := new ForwardReference(clock, gcId, fullCause, FullCycle, Full);
        SetForwardRefForPhase(Full, ref);
      } else {
        gcCauseMap := gcCauseMap[gcId := cause];
      }
      threw := false;
    }

    method GenerationStart(gcId: int, phase: Option<Phase>) returns (threw: bool)
      requires Valid()
      modifies this, Repr
      ensures Valid() && fresh(Repr - old(Repr))
      ensures Outcome(Abs(), threw) == ZGCModel.GenerationStart(old(Abs()), gcId, phase)
    {
      if !generational {
        return false;
      }
      if phase.None? {
        return true;
      }
      var p := phase.value;
      var cause := if gcId in gcCauseMap then gcCauseMap[gcId] else UnknownGCCause;
      var ref := new ForwardReference(clock, gcId, cause, CycleTypeOf(p), p);
      SetForwardRefForPhase(p, ref);
      threw := false;
    }

    method PausePhase(phase: Option<Phase>, name: string, duration: int) returns (threw: bool)
      requires Valid()
      modifies this, Repr
      ensures Valid() && fresh(Repr - old(Repr))
      ensures Outcome(Abs(), threw) == ZGCModel.PausePhase(old(Abs()), phase, name, duration)
    {
      var ref := GetForwardRefForPhase(phase);
      if ref.None? {
        return true;
      }
      var k, timing := SlotOf(phase.value), Timing(clock - duration, duration);
      assert ZGCModel.PausePhase(Abs(), phase, name, duration) == ZGCModel.Pause(Abs(), k, name, timing);
      threw := Pause(ref.value, k, name, timing);
    }

    method Pause(ref: ForwardReference?, ghost k: int, name: string, timing: Timing) returns (threw: bool)
      requires Valid() && 0 <= k < 3 && ref == forwardReferences[k]
      modifies this, Repr
      ensures Valid() && Repr == old(Repr) && unchanged(forwardReferences)
      ensures Outcome(Abs(), threw) == ZGCModel.Pause(old(Abs()), k, name, timing)
    {
      threw := WriteOn(ref, k, TimingSetter(Lookup(MarkStartNames, name), timing), false);
      if !threw {
        threw := WriteOn(ref, k, TimingSetter(Lookup(PauseNames, name), timing), true);
      }
    }

    /** The handlers that pick a setter by the line's name: concurrentPhase, pageSummary, referenceProcessingGen, occupancyEntry, reclaimedPromoted. */
    method SetSelected(phase: Option<Phase>, w: Option<Setter>, report: bool) returns (threw: bool)
      requires Valid()
      modifies this, Repr
      ensures Valid() && fresh(Repr - old(Repr))
      ensures Outcome(Abs(), threw) == WriteSelected(old(Abs()), phase, w, report)
    {
      var ref := GetForwardRefForPhase(phase);
      if ref.None? {
        return true;
      }
      threw := WriteOn(ref.value, SlotOf(phase.value), w, report);
    }

    method ConcurrentPhase(phase: Option<Phase>, name: string, duration: int) returns (threw: bool)
      requires Valid()
      modifies this, Repr
      ensures Valid() && fresh(Repr - old(Repr))
      ensures Outcome(Abs(), threw) == ZGCModel.ConcurrentPhase(old(Abs()), phase, name, duration)
    {
      threw := SetSelected(phase, TimingSetter(Lookup(ConcurrentNames, name), Timing(clock - duration, duration)), true);
    }

    method PageSummary(phase: Option<Phase>, name: string, pages: ZGCTypes.PageSummary) returns (threw: bool)
      requires Valid()
      modifies this, Repr
      ensures Valid() && fresh(Repr - old(Repr))
      ensures Outcome(Abs(), threw) == PageSummaryLine(old(Abs()), phase, name, pages)
    {
      threw := SetSelected(phase, PageSetter(name, pages), false);
    }

    /** The handlers that call one setter on the phase's reference: load, loadGen, mmu, markSummary, nMethods, metaspace, forwardingUsage, ageTable. */
    method SetForPhase(phase: Option<Phase>, w: Setter) returns (threw: bool)
      requires Valid()
      modifies this, Repr
      ensures Valid() && fresh(Repr - old(Repr))
      ensures Outcome(Abs(), threw) == WriteFor(old(Abs()), phase, w)
    {
      var ref := GetForwardRefForPhase(phase);
      if ref.None? {
        return true;
      }
      threw := SetOn(ref.value, SlotOf(phase.value), w);
    }

    method ReferenceProcessingGen(phase: Option<Phase>, name: string, refs: ReferenceSummary) returns (threw: bool)
      requires Valid()
      modifies this, Repr
      ensures Valid() && fresh(Repr - old(Repr))
      ensures Outcome(Abs(), threw) == ZGCModel.ReferenceProcessingGen(old(Abs()), phase, name, refs)
    {
      threw := SetSelected(phase, ReferenceSetter(name, refs), false);
    }

    method Capacity(phase: Option<Phase>, name: string, kb: int) returns (threw: bool)
      requires Valid()
      modifies this, Repr
      ensures Valid() && fresh(Repr - old(Repr))
      ensures Outcome(Abs(), threw) == ZGCModel.Capacity(old(Abs()), phase, name, kb)
    {
      var ref := GetForwardRefForPhase(phase);
      if ref.None? {
        return true;
      }
      var column := Lookup(CapacityNames, name);
      if column.None? {
        return false;
      }
      var i := column.value;
      SetCapacity(i, kb);
      if i == 2 {
        var summary := HeapCapacitySummary(heapCapacity[0], heapCapacity[1], heapCapacity[2]);
        threw := SetOn(ref.value, SlotOf(phase.value), SetHeapCapacitySummary(summary));
      } else {
        threw := false;
      }
    }

    method SizeEntry(phase: Option<Phase>, name: string, row: OccupancySummary) returns (threw: bool)
      requires Valid()
      modifies this, Repr
      ensures Valid() && fresh(Repr - old(Repr))
      ensures Outcome(Abs(), threw) == ZGCModel.SizeEntry(old(Abs()), phase, name, row)
    {
      var ref := GetForwardRefForPhase(phase);
      if ref.None? {
        return true;
      }
      var p := phase.value;
      var r, k := ref.value, SlotOf(p);
      if genHeapStats {
        threw := WriteOn(r, k, if name == "Used" then Some(SetGenerationUsedSummary(p, row)) else None, true);
        return;
      }
      var column := Lookup(SizeNames, name);
      if column.None? {
        // the source only warns that the row is not recognised
        return false;
      }
      threw := Capture(r, k, column.value, row);
    }

    method OccupancyEntry(phase: Option<Phase>, name: string, sizes: SizeTriple) returns (threw: bool)
      requires Valid()
      modifies this, Repr
      ensures Valid() && fresh(Repr - old(Repr))
      ensures Outcome(Abs(), threw) == ZGCModel.OccupancyEntry(old(Abs()), phase, name, sizes)
    {
      threw := SetSelected(phase, OccupancySetter(name, sizes), true);
    }

    method ReclaimedPromoted(phase: Option<Phase>, name: string, pair: SizePair) returns (threw: bool)
      requires Valid()
      modifies this, Repr
      ensures Valid() && fresh(Repr - old(Repr))
      ensures Outcome(Abs(), threw) == ZGCModel.ReclaimedPromoted(old(Abs()), phase, name, pair)
    {
      threw := SetSelected(phase, ReclaimedPromotedSetter(name, pair), false);
    }

    method Compacted(phase: Option<Phase>, kb: int) returns (threw: bool)
      requires Valid()
      modifies this, Repr
      ensures Valid() && fresh(Repr - old(Repr))
      ensures Outcome(Abs(), threw) == ZGCModel.Compacted(old(Abs()), phase, kb)
    {
      var ref := GetForwardRefForPhase(phase);
      if ref.None? {
        return true;
      }
      genHeapStats := false;
      threw := SetOn(ref.value, SlotOf(phase.value), SetCompactedSummary(CompactedSummary(kb)));
    }

    method GenerationEnd(phase: Option<Phase>, memory: MemorySummary, explicitDuration: Option<int>) returns (threw: bool)
      requires Valid()
      modifies this, Repr
      ensures Valid() && fresh(Repr - old(Repr))
      ensures Outcome(Abs(), threw) == ZGCModel.GenerationEnd(old(Abs()), phase, memory, explicitDuration)
    {
      var ref := GetForwardRefForPhase(phase);
      if ref.None? {
        return true;
      }
      genHeapStats := false;
      threw := Complete(ref.value, SlotOf(phase.value), memory, explicitDuration);
    }

    method MemorySummaryLine(gcId: int, memory: MemorySummary) returns (threw: bool)
      requires Valid()
      modifies this, Repr
      ensures Valid() && fresh(Repr - old(Repr))
      ensures Outcome(Abs(), threw) == ZGCModel.MemorySummaryLine(old(Abs()), gcId, memory)
    {
      if generational {
        gcCauseMap := gcCauseMap - {gcId};
      } else {
        var ref := GetForwardRefForPhase(Some(Full));
        threw := Complete(ref.value, SlotOf(Full), memory, None);
        if threw {
          return;
        }
      }
      ResetHeapCapacity();
      threw := false;
    }

    /** The end-of-file line publishes the termination event. */
    method EndOfFile() returns (threw: bool)
      requires Valid()
      modifies this, Repr
      ensures Valid() && fresh(Repr - old(Repr))
      ensures Outcome(Abs(), threw) == ZGCModel.HandleCycleLine(old(Abs()), EndOfFileTrace)
    {
      Publish(Termination(clock, timeOfFirstEvent));
      threw := false;
    }

    /** The line that opens the generation statistics table sets the flag. */
    method MarkGenHeapStats() returns (threw: bool)
      requires Valid()
      modifies this, Repr
      ensures Valid() && fresh(Repr - old(Repr))
      ensures Outcome(Abs(), threw) == ZGCModel.HandleCycleLine(old(Abs()), MarkGenHeapStatsTrace)
    {
      genHeapStats := true;
      threw := false;
    }

    /** The handler bound to the rule that produced the trace. */
    method Handle(t: Trace) returns (threw: bool)
      requires Valid()
      modifies this, Repr
      ensures Valid() && fresh(Repr - old(Repr))
      ensures Outcome(Abs(), threw) == ZGCModel.Handle(old(Abs()), t)
    {
      if IsCycleLine(t) {
        threw := HandleCycleLine(t);
      } else if IsTableLine(t) {
        threw := HandleTableLine(t);
      } else if IsSummaryLine(t) {
        threw := HandleSummaryLine(t);
      } else {
        threw := HandleTimingLine(t);
      }
    }

    method HandleCycleLine(t: Trace) returns (threw: bool)
      requires Valid() && IsCycleLine(t)
      modifies this, Repr
      ensures Valid() && fresh(Repr - old(Repr))
      ensures Outcome(Abs(), threw) == ZGCModel.HandleCycleLine(old(Abs()), t)
    {
      match t
      case CycleStartTrace(id, ct, fullCause, cause) => threw := CycleStart(id, ct, fullCause, cause);
      case GenerationStartTrace(id, p) => threw := GenerationStart(id, p);
      case GenerationEndTrace(p, m, d) => threw := GenerationEnd(p, m, d);
      case MemorySummaryTrace(id, m) => threw := MemorySummaryLine(id, m);
      case EndOfFileTrace => threw := EndOfFile();
      case MarkGenHeapStatsTrace => threw := MarkGenHeapStats();
    }

    method HandleTableLine(t: Trace) returns (threw: bool)
      requires Valid() && IsTableLine(t)
      modifies this, Repr
      ensures Valid() && fresh(Repr - old(Repr))
      ensures Outcome(Abs(), threw) == ZGCModel.HandleTableLine(old(Abs()), t)
    {
      match t
      case CapacityTrace(p, name, kb) => threw := Capacity(p, name, kb);
      case SizeEntryTrace(p, name, row) => threw := SizeEntry(p, name, row);
      case OccupancyEntryTrace(p, name, v) => threw := OccupancyEntry(p, name, v);
      case ReclaimedPromotedTrace(p, name, v) => threw := ReclaimedPromoted(p, name, v);
      case ReferenceProcessingGenTrace(p, name, v) => threw := ReferenceProcessingGen(p, name, v);
      case PagesTrace(p, name, v) => threw := PageSummary(p, name, v);
      case CompactedTrace(p, kb) => threw := Compacted(p, kb);
    }

    method HandleSummaryLine(t: Trace) returns (threw: bool)
      requires Valid() && IsSummaryLine(t)
      modifies this, Repr
      ensures Valid() && fresh(Repr - old(Repr))
      ensures Outcome(Abs(), threw) == ZGCModel.HandleSummaryLine(old(Abs()), t)
    {
      match t
      case LoadTrace(p, v) => threw := SetForPhase(p, SetLoad(v));
      case LoadGenTrace(p, v) => threw := SetForPhase(p, SetLoad(v));
      case MmuTrace(p, v) => threw := SetForPhase(p, SetMMU(v));
      case MarkSummaryTrace(p, v) => threw := SetForPhase(p, SetMarkSummary(v));
      case NMethodsTrace(p, v) => threw := SetForPhase(p, SetNMethodSummary(v));
      case MetaspaceTrace(p, v) => threw := SetForPhase(p, SetMetaspaceSummary(v));
      case ForwardingUsageTrace(p, kb) => threw := SetForPhase(p, SetForwardingUsage(kb));
      case AgeTableTrace(p, v) => threw := SetForPhase(p, AddPageAgeSummary(v));
    }

    method HandleTimingLine(t: Trace) returns (threw: bool)
      requires Valid() && IsTimingLine(t)
      modifies this, Repr
      ensures Valid() && fresh(Repr - old(Repr))
      ensures Outcome(Abs(), threw) == ZGCModel.HandleTimingLine(old(Abs()), t)
    {
      match t
      case PausePhaseTrace(p, name, d) => threw := PausePhase(p, name, d);
      case ConcurrentPhaseTrace(p, name, d) => threw := ConcurrentPhase(p, name, d);
      case RelocationSummaryTrace => threw := false;
      case ReferenceProcessingTrace => threw := false;
    }

    /** The position of the first rule of the queue that the line's oracle `parse` matches, or the queue's length when none does. */
    method FirstMatch(rules: seq<Rule>, parse: Rule -> Option<Trace>) returns (i: int)
      ensures i == FirstMatchIndex(rules, parse)
    {
      i := 0;
      while i < |rules|
        invariant 0 <= i <= |rules|
        invariant forall j | 0 <= j < i :: parse(rules[j]).None?
      {
        if parse(rules[i]).Some? {
          FirstMatchIndexIs(rules, parse, i);
          return;
        }
        i := i + 1;
      }
      FirstMatchIndexIs(rules, parse, i);
    }

    /**
     * process: header lines are skipped; otherwise the first rule whose
     * pattern matches runs its handler, and the line is logged when no rule
     * matches or the handler throws.
     */
    method Process(line: Line)
      requires Valid()
      modifies this, Repr
      ensures Valid() && fresh(Repr - old(Repr))
      ensures Abs() == ProcessSpec(old(Abs()), line)
    {
      if !line.isHeader {
        var matched := Match(line);
        Deliver(line.text, matched);
      }
    }

    /** The captures of the first rule whose pattern matches the line, if any does. */
    method Match(line: Line) returns (matched: Option<Trace>)
      ensures matched == Matched(line)
    {
      var i := FirstMatch(parseRules, line.parse);
      if i < |parseRules| {
        matched := line.parse(parseRules[i]);
      } else {
        matched := None;
      }
    }

    /** No match logs the line; otherwise the matched rule's handler runs on its captures, and the line is logged if it throws. */
    method Deliver(text: string, matched: Option<Trace>)
      requires Valid()
      modifies this, Repr
      ensures Valid() && fresh(Repr - old(Repr))
      ensures Abs() == ZGCModel.Deliver(old(Abs()), text, matched)
    {
      match matched
      case None => Miss(text);
      case Some(t) =>
        var threw := Handle(t);
        if threw {
          Miss(text);
        }
    }

    /** A missed line: logged, the rest of the parser untouched. */
    method Miss(text: string)
      requires Valid()
      modifies this
      ensures Valid() && Repr == old(Repr)
      ensures Abs() == ZGCModel.Log(old(Abs()), text)
    {
      Log(text);
    }

    /** The base class sets the clock from the line's time stamp before handing the line over. */
    method Receive(r: Received)
      requires Valid()
      modifies this, Repr
      ensures Valid() && fresh(Repr - old(Repr))
      ensures Abs() == ZGCModel.Receive(old(Abs()), r)
    {
      clock := r.clock;
      Process(r.line);
    }
  }
}
