/** Finding the methods array of `java.lang.Thread`'s class object (src/art/layout.rs). */
module ClassLayout {
  import opened ArtLayout
  import opened ArtMemory
  import opened Wrappers

  datatype ArtArray = ArtArray(data: Word, length: nat)

  datatype MethodQueryLayout = MethodQueryLayout(
    classMethodsOffset: nat, classCopiedMethodsOffset: nat, methodSize: nat)

  datatype ClassLayoutError = MethodsNotFound | CopiedCountNotFound

  /** A length-prefixed array behind a pointer field. */
  function ReadArtArray(m: Memory, holder: Word, offset: nat): Option<ArtArray> {
    match m.ReadUsize(Offset(holder, offset))
    case None => None
    case Some(header) =>
      if header == 0 || !m.Contains(header, POINTER_SIZE) then None else
      var length := m.ReadUsize(header);
      if length.None? || length.value == 0 then None
      else Some(ArtArray(Offset(header, POINTER_SIZE), length.value))
  }

  /** What the probe is asked: every one of `methods` (each a set of candidate addresses) must be in the array. */
  datatype Search = Search(m: Memory, class_: Word, methods: seq<set<Word>>, methodSize: nat)
  {
    function MethodAt(found: ArtArray, index: nat): Word {
      Offset(found.data, index * methodSize)
    }

    predicate HasAll(found: ArtArray) {
      forall candidates <- methods :: exists index: nat :: index < found.length && MethodAt(found, index) in candidates
    }

    /** The offset holds a readable method array of sensible length with all the known methods in it. */
    predicate Fits(offset: nat) {
      var found := ReadArtArray(m, class_, offset);
      && found.Some? && found.value.length <= ART_METHOD_ARRAY_MAX_PROBE
      && found.value.length * methodSize < ADDRESS_SPACE
      && m.Contains(found.value.data, found.value.length * methodSize)
      && HasAll(found.value)
    }

    function FittingSlots(): nat -> bool {
      (k: nat) => Fits(4 * k)
    }

    function SlotCount(): nat { CLASS_LAYOUT_SCAN_LIMIT / 4 }

    /** The slots at and after `first` that hold the method count, or cannot be read. */
    function CopiedSlots(first: nat, count: nat): nat -> bool {
      (k: nat) => m.ReadU16(Offset(class_, 4 * (first + k))) in {None, Some(count)}
    }

    function CopiedOffset(first: nat, count: nat): Option<nat> {
      if count >= 0x1_0000 || SlotCount() < first then None else
      match First(CopiedSlots(first, count), SlotCount() - first)
      case None => None
      case Some(k) => if m.ReadU16(Offset(class_, 4 * (first + k))).None? then None else Some(4 * (first + k))
    }

    function Detected(): Result<MethodQueryLayout, ClassLayoutError> {
      match First(FittingSlots(), SlotCount())
      case None => Err(MethodsNotFound)
      case Some(k) =>
        FirstIsLowest(FittingSlots(), SlotCount());
        match CopiedOffset(k, ReadArtArray(m, class_, 4 * k).value.length)
        case None => Err(CopiedCountNotFound)
        case Some(copied) => Ok(MethodQueryLayout(4 * k, copied, methodSize))
    }
  }

  method DetectCopiedMethodsOffset(s: Search, first: nat, count: nat) returns (r: Option<nat>)
    requires first <= s.SlotCount()
    ensures r == s.CopiedOffset(first, count)
  {
    hide First;
    if count >= 0x1_0000 {
      return None;
    }
    var slots, n := s.CopiedSlots(first, count), s.SlotCount() - first;
    FirstOfNone(slots);
    var k: nat := 0;
    while k < n
      invariant k <= n && First(slots, k).None?
    {
      var value := s.m.ReadU16(Offset(s.class_, 4 * (first + k)));
      FirstNext(slots, k);
      if slots(k) {
        FirstExtends(slots, k + 1, n);
      }
      if value.None? {
        return None;
      }
      if value.value == count {
        return Some(4 * (first + k));
      }
      k := k + 1;
    }
    return None;
  }

  method DetectThreadClassMethodLayout(s: Search) returns (r: Result<MethodQueryLayout, ClassLayoutError>)
    ensures r == s.Detected()
  {
    hide First;
    var slots, n := s.FittingSlots(), s.SlotCount();
    FirstOfNone(slots);
    var k: nat := 0;
    while k < n
      invariant k <= n && First(slots, k).None?
    {
      FirstNext(slots, k);
      if slots(k) {
        FirstExtends(slots, k + 1, n);
        var found := ReadArtArray(s.m, s.class_, 4 * k).value;
        var copied := DetectCopiedMethodsOffset(s, k, found.length);
        return if copied.None? then Err(CopiedCountNotFound)
               else Ok(MethodQueryLayout(4 * k, copied.value, s.methodSize));
      }
      k := k + 1;
    }
    return Err(MethodsNotFound);
  }

  /** One range check covers every method slot of the array. */
  lemma MethodSlotsReadable(s: Search, found: ArtArray, index: nat)
    requires s.m.Contains(found.data, found.length * s.methodSize) && index < found.length
    ensures s.m.Contains(s.MethodAt(found, index), s.methodSize)
  {
    SlotInBlock(index, found.length, s.methodSize);
    BlockCoversFields(s.m, found.data, found.length * s.methodSize, index * s.methodSize, s.methodSize);
  }

  lemma SlotInBlock(index: nat, length: nat, size: nat)
    requires index < length
    ensures 0 <= index * size && index * size + size <= length * size
  {
    assert length * size == index * size + size + (length - index - 1) * size;
  }

  /** A detected layout is the lowest that fits, and its copied-method field holds the length of its readable array. */
  lemma DetectedFits(s: Search)
    requires s.Detected().Ok?
    ensures var layout := s.Detected().value;
            && s.Fits(layout.classMethodsOffset)
            && (forall k: nat :: 4 * k < layout.classMethodsOffset ==> !s.FittingSlots()(k))
            && s.m.ReadU16(Offset(s.class_, layout.classCopiedMethodsOffset)) ==
               Some(ReadArtArray(s.m, s.class_, layout.classMethodsOffset).value.length)
            && layout.classMethodsOffset <= layout.classCopiedMethodsOffset
  {
    FirstIsLowest(s.FittingSlots(), s.SlotCount());
    var k := First(s.FittingSlots(), s.SlotCount()).value;
    CopiedHoldsCount(s, k, ReadArtArray(s.m, s.class_, 4 * k).value.length);
  }

  lemma CopiedHoldsCount(s: Search, first: nat, count: nat)
    requires s.CopiedOffset(first, count).Some?
    ensures s.m.ReadU16(Offset(s.class_, s.CopiedOffset(first, count).value)) == Some(count)
    ensures 4 * first <= s.CopiedOffset(first, count).value
  {
    FirstIsLowest(s.CopiedSlots(first, count), s.SlotCount() - first);
  }
}
