/**
  ClassLinker trampoline detection (src/art/layout.rs): from the intern-table anchor, or, failing
  that, from the one place where ART's own predicates recognise a sequence of trampolines.
*/
module Trampolines {
  import opened ArtLayout
  import opened ArtMemory
  import opened Wrappers

  /** `ArtRuntimeLayout`. */
  datatype RuntimeLayout = RuntimeLayout(
    runtime: Word, heap: Word, threadList: Word, classLinker: Word, internTable: Word,
    jniIdManager: Word, jniIdsIndirection: Option<int>)

  datatype TrampolineOffsets = TrampolineOffsets(
    quickResolution: nat, quickImtConflict: nat, quickGenericJni: nat, quickToInterpreterBridge: nat)

  datatype TrampolineSet = TrampolineSet(
    quickResolution: Word, quickImtConflict: Word, quickGenericJni: Word, quickToInterpreterBridge: Word)

  datatype TrampolineError =
    | NullInternTable | PredicatesUnavailable | SequenceNotFound | MultipleCandidates
    | SlotUnreadable(offset: nat) | SlotNull(offset: nat) | SlotNotExecutable(offset: nat)

  const SCAN_START: nat := 200

  function OffsetsFromAnchor(apiLevel: int, anchor: nat): TrampolineOffsets {
    var delta := if apiLevel >= 30 then 6 else if apiLevel >= 29 then 4 else 3;
    var genericJni := anchor + delta * POINTER_SIZE;
    TrampolineOffsets(genericJni - (if apiLevel >= 23 then 2 else 3) * POINTER_SIZE,
                      genericJni - POINTER_SIZE, genericJni, genericJni + POINTER_SIZE)
  }

  function OffsetsFromQuickResolution(quickResolution: nat): TrampolineOffsets {
    TrampolineOffsets(quickResolution, quickResolution + POINTER_SIZE,
                      quickResolution + 2 * POINTER_SIZE, quickResolution + 3 * POINTER_SIZE)
  }

  /** The two derivations are one exactly from API 23 on, where the four slots are consecutive. */
  lemma DerivationsAgree(apiLevel: int, anchor: nat)
    ensures var offsets := OffsetsFromAnchor(apiLevel, anchor);
            offsets == OffsetsFromQuickResolution(offsets.quickResolution) <==> apiLevel >= 23
  {}

  function ReadTrampoline(m: Memory, classLinker: Word, offset: nat): Result<Word, TrampolineError> {
    match m.ReadUsize(Offset(classLinker, offset))
    case None => Err(SlotUnreadable(offset))
    case Some(value) =>
      if value == 0 then Err(SlotNull(offset))
      else if !m.ContainsExecutable(value, 1) then Err(SlotNotExecutable(offset))
      else Ok(value)
  }

  /** The four slots in order; the first bad one decides the error. */
  function ReadTrampolines(m: Memory, classLinker: Word, offsets: TrampolineOffsets)
    : Result<TrampolineSet, TrampolineError>
  {
    var resolution := ReadTrampoline(m, classLinker, offsets.quickResolution);
    if resolution.Err? then Err(resolution.error) else
    var imtConflict := ReadTrampoline(m, classLinker, offsets.quickImtConflict);
    if imtConflict.Err? then Err(imtConflict.error) else
    var genericJni := ReadTrampoline(m, classLinker, offsets.quickGenericJni);
    if genericJni.Err? then Err(genericJni.error) else
    var toInterpreter := ReadTrampoline(m, classLinker, offsets.quickToInterpreterBridge);
    if toInterpreter.Err? then Err(toInterpreter.error) else
    Ok(TrampolineSet(resolution.value, imtConflict.value, genericJni.value, toInterpreter.value))
  }

  /** A slot holds a usable trampoline. */
  predicate GoodSlot(m: Memory, classLinker: Word, offset: nat) {
    var value := m.ReadUsize(Offset(classLinker, offset));
    value.Some? && value.value != 0 && m.ContainsExecutable(value.value, 1)
  }

  predicate GoodSlots(m: Memory, classLinker: Word, offsets: TrampolineOffsets) {
    && GoodSlot(m, classLinker, offsets.quickResolution) && GoodSlot(m, classLinker, offsets.quickImtConflict)
    && GoodSlot(m, classLinker, offsets.quickGenericJni) && GoodSlot(m, classLinker, offsets.quickToInterpreterBridge)
  }

  // ---------------------------------------------------------------------------
  // The scan by predicates

  type Reader = nat -> Result<TrampolineSet, TrampolineError>

  /** From slot `k` on, with what matched before. */
  function ScanFrom(hits: nat -> bool, read: Reader, k: nat, n: nat, candidate: Option<TrampolineSet>)
    : Result<TrampolineSet, TrampolineError>
    requires k <= n
    decreases n - k
  {
    if k == n then (if candidate.Some? then Ok(candidate.value) else Err(SequenceNotFound))
    else if !hits(k) then ScanFrom(hits, read, k + 1, n, candidate)
    else if read(k).Err? then Err(read(k).error)
    else if candidate.Some? then Err(MultipleCandidates)
    else ScanFrom(hits, read, k + 1, n, Some(read(k).value))
  }

  lemma {:induction false} ScanFromExact(hits: nat -> bool, read: Reader, k: nat, n: nat,
                                         candidate: Option<TrampolineSet>)
    requires k <= n
    ensures var r := ScanFrom(hits, read, k, n, candidate);
            if candidate.Some? then
              (r.Ok? <==> forall j: nat :: k <= j < n ==> !hits(j)) && (r.Ok? ==> r == Ok(candidate.value))
            else
              (r.Ok? <==> exists j: nat :: OnlyHit(hits, k, n, j) && read(j).Ok?)
              && (forall j: nat :: r.Ok? && k <= j < n && hits(j) ==> r == read(j))
              && ((forall j: nat :: k <= j < n ==> !hits(j)) ==> r == Err(SequenceNotFound))
    decreases n - k
  {
    if k < n {
      if !hits(k) {
        ScanFromExact(hits, read, k + 1, n, candidate);
        assert forall j: nat :: OnlyHit(hits, k, n, j) <==> OnlyHit(hits, k + 1, n, j);
      } else if read(k).Ok? && candidate.None? {
        ScanFromExact(hits, read, k + 1, n, Some(read(k).value));
        if ScanFrom(hits, read, k, n, candidate).Ok? {
          assert OnlyHit(hits, k, n, k);
        }
      }
    }
  }

  ghost predicate OnlyHit(hits: nat -> bool, from: nat, n: nat, k: nat) {
    from <= k < n && hits(k) && forall j: nat :: from <= j < n && hits(j) ==> j == k
  }

  /** Where a sequence of four trampolines may start: every word of the window that leaves room for four. */
  datatype Search = Search(m: Memory, layout: RuntimeLayout, apiLevel: int, predicates: Option<Predicates>)
  {
    function AnchorSlots(): nat { 100 }

    function SequenceSlots(): nat { 512 - 3 }

    function SlotOffset(k: nat): nat { SCAN_START + POINTER_SIZE * k }

    function Anchors(): nat -> bool {
      Slots(m, layout.classLinker, Holds(layout.internTable), SCAN_START, POINTER_SIZE)
    }

    function Sequences(p: Predicates): nat -> bool {
      Slots(m, layout.classLinker, Probe.Trampolines(p), SCAN_START, POINTER_SIZE)
    }

    function ReadAt(): Reader {
      (k: nat) => ReadTrampolines(m, layout.classLinker, OffsetsFromQuickResolution(SlotOffset(k)))
    }

    function ByPredicate(): Result<TrampolineSet, TrampolineError> {
      if predicates.None? then Err(PredicatesUnavailable)
      else ScanFrom(Sequences(predicates.value), ReadAt(), 0, SequenceSlots(), None)
    }

    function Detected(): Result<TrampolineSet, TrampolineError> {
      if layout.internTable == 0 then Err(NullInternTable) else
      match First(Anchors(), AnchorSlots())
      case Some(k) => ReadTrampolines(m, layout.classLinker, OffsetsFromAnchor(apiLevel, SlotOffset(k)))
      case None => ByPredicate()
    }
  }

  method DetectByPredicate(s: Search) returns (r: Result<TrampolineSet, TrampolineError>)
    ensures r == s.ByPredicate()
  {
    if s.predicates.None? {
      return Err(PredicatesUnavailable);
    }
    var hits, read, n := s.Sequences(s.predicates.value), s.ReadAt(), s.SequenceSlots();
    r := UniqueSequence(hits, read, n);
  }

  method UniqueSequence(hits: nat -> bool, read: Reader, n: nat) returns (r: Result<TrampolineSet, TrampolineError>)
    ensures r == ScanFrom(hits, read, 0, n, None)
  {
    var candidate: Option<TrampolineSet> := None;
    for k: nat := 0 to n
      invariant ScanFrom(hits, read, k, n, candidate) == ScanFrom(hits, read, 0, n, None)
    {
      if !hits(k) {
        continue;
      }
      var trampolines := read(k);
      if trampolines.Err? {
        return Err(trampolines.error);
      }
      if candidate.Some? {
        return Err(MultipleCandidates);
      }
      candidate := Some(trampolines.value);
    }
    return if candidate.Some? then Ok(candidate.value) else Err(SequenceNotFound);
  }

  /** The scan for the anchor, which stops at the first hit. */
  method FindFirst(hits: nat -> bool, n: nat) returns (r: Option<nat>)
    ensures r == First(hits, n)
  {
    for k: nat := 0 to n
      invariant First(hits, k).None?
    {
      if hits(k) {
        FirstExtends(hits, k + 1, n);
        return Some(k);
      }
    }
    return None;
  }

  method DetectTrampolines(s: Search) returns (r: Result<TrampolineSet, TrampolineError>)
    ensures r == s.Detected()
  {
    if s.layout.internTable == 0 {
      return Err(NullInternTable);
    }
    var anchor := FindFirst(s.Anchors(), s.AnchorSlots());
    match anchor {
      case Some(k) => return ReadTrampolines(s.m, s.layout.classLinker, OffsetsFromAnchor(s.apiLevel, s.SlotOffset(k)));
      case None => r := DetectByPredicate(s);
    }
  }

  /** Reading succeeds exactly when the four slots are good, and then returns what they hold. */
  lemma ReadTrampolinesExact(m: Memory, classLinker: Word, offsets: TrampolineOffsets)
    ensures ReadTrampolines(m, classLinker, offsets).Ok? <==> GoodSlots(m, classLinker, offsets)
    ensures forall t :: ReadTrampolines(m, classLinker, offsets) == Ok(t) ==>
              && m.ReadUsize(Offset(classLinker, offsets.quickResolution)) == Some(t.quickResolution)
              && m.ReadUsize(Offset(classLinker, offsets.quickImtConflict)) == Some(t.quickImtConflict)
              && m.ReadUsize(Offset(classLinker, offsets.quickGenericJni)) == Some(t.quickGenericJni)
              && m.ReadUsize(Offset(classLinker, offsets.quickToInterpreterBridge)) == Some(t.quickToInterpreterBridge)
  {}

  /** With no anchor, detection succeeds exactly when one offset of the window matches and its four slots are good. */
  lemma DetectedWithoutAnchor(s: Search)
    requires s.layout.internTable != 0 && First(s.Anchors(), s.AnchorSlots()).None? && s.predicates.Some?
    ensures s.Detected().Ok? <==>
            exists k: nat :: OnlyHit(s.Sequences(s.predicates.value), 0, s.SequenceSlots(), k)
                             && GoodSlots(s.m, s.layout.classLinker, OffsetsFromQuickResolution(s.SlotOffset(k)))
  {
    var hits, read, n := s.Sequences(s.predicates.value), s.ReadAt(), s.SequenceSlots();
    ScanFromExact(hits, read, 0, n, None);
    forall k: nat
      ensures read(k).Ok? <==> GoodSlots(s.m, s.layout.classLinker, OffsetsFromQuickResolution(s.SlotOffset(k)))
    {
      ReadTrampolinesExact(s.m, s.layout.classLinker, OffsetsFromQuickResolution(s.SlotOffset(k)));
    }
  }

  /** From API 23 on, both paths return the contents of four consecutive words, all of them executable addresses. */
  lemma DetectedAreConsecutive(s: Search)
    requires s.apiLevel >= 23 && s.Detected().Ok?
    ensures exists offset: nat ::
              var offsets := OffsetsFromQuickResolution(offset);
              GoodSlots(s.m, s.layout.classLinker, offsets)
              && ReadTrampolines(s.m, s.layout.classLinker, offsets) == s.Detected()
  {
    if First(s.Anchors(), s.AnchorSlots()).Some? {
      var anchor := s.SlotOffset(First(s.Anchors(), s.AnchorSlots()).value);
      DerivationsAgree(s.apiLevel, anchor);
      var offset := OffsetsFromAnchor(s.apiLevel, anchor).quickResolution;
      ReadTrampolinesExact(s.m, s.layout.classLinker, OffsetsFromQuickResolution(offset));
    } else {
      var hits, read, n := s.Sequences(s.predicates.value), s.ReadAt(), s.SequenceSlots();
      ScanFromExact(hits, read, 0, n, None);
      var k: nat :| OnlyHit(hits, 0, n, k) && read(k).Ok?;
      assert read(k) == s.Detected();
      ReadTrampolinesExact(s.m, s.layout.classLinker, OffsetsFromQuickResolution(s.SlotOffset(k)));
    }
  }
}
