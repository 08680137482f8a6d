/**
  The bytes of an ArtMethod (src/art/replacement/method.rs): reading the fields that a replacement
  touches, writing them, and writing them with verification. Memory is a sequence of 32-bit words, the
  granularity at which the layout scan places fields; a pointer field is two consecutive words.
*/
module ArtMethodImage {
  import opened Wrappers
  import opened MethodKinds

  type Word = bv32

  datatype Pointer = Pointer(lo: Word, hi: Word)

  const NULL := Pointer(0, 0)

  type Image = seq<Word>

  /** ArtMethodRuntimeLayout, every offset and the size counted in words. */
  datatype Layout = Layout(size: nat, flags: nat, jniCode: nat, quickCode: nat, interpreterCode: Option<nat>)

  datatype Snapshot = Snapshot(
    accessFlags: Word, jniCode: Pointer, quickCode: Pointer, interpreterCode: Option<Pointer>)

  /** The words a snapshot of the given layout reads all exist. */
  predicate Fits(l: Layout, image: Image) {
    && l.size <= |image|
    && l.flags < |image|
    && l.jniCode + 1 < |image|
    && l.quickCode + 1 < |image|
    && (l.interpreterCode.Some? ==> l.interpreterCode.value + 1 < |image|)
  }

  predicate InFields(l: Layout, at: nat) {
    || at == l.flags
    || l.jniCode <= at <= l.jniCode + 1
    || l.quickCode <= at <= l.quickCode + 1
    || (l.interpreterCode.Some? && l.interpreterCode.value <= at <= l.interpreterCode.value + 1)
  }

  function PointerAt(image: Image, at: nat): Pointer
    requires at + 1 < |image|
  {
    Pointer(image[at], image[at + 1])
  }

  /** None stands for the error "target ArtMethod is not readable". */
  function ReadSnapshot(image: Image, l: Layout): Option<Snapshot> {
    if Fits(l, image) then
      Some(Snapshot(
             image[l.flags], PointerAt(image, l.jniCode), PointerAt(image, l.quickCode),
             if l.interpreterCode.Some? then Some(PointerAt(image, l.interpreterCode.value)) else None))
    else None
  }

  function PutPointer(image: Image, at: nat, p: Pointer): (r: Image)
    requires at + 1 < |image|
    ensures |r| == |image|
  {
    image[at := p.lo][at + 1 := p.hi]
  }

  /** The four writes, in the source's order. */
  function Patch(image: Image, l: Layout, s: Snapshot): (r: Image)
    requires Fits(l, image)
    ensures |r| == |image|
  {
    var flagged := image[l.flags := s.accessFlags];
    var withCode := PutPointer(PutPointer(flagged, l.jniCode, s.jniCode), l.quickCode, s.quickCode);
    if l.interpreterCode.Some? && s.interpreterCode.Some?
    then PutPointer(withCode, l.interpreterCode.value, s.interpreterCode.value)
    else withCode
  }

  lemma PatchKeepsOtherWords(image: Image, l: Layout, s: Snapshot)
    requires Fits(l, image)
    ensures forall k: nat :: k < |image| && !InFields(l, k) ==> Patch(image, l, s)[k] == image[k]
  {}

  /**
    Writing back a snapshot taken earlier restores every word, whatever was written to the fields in
    between and however the fields of the detected layout may overlap.
  */
  lemma RestoreIsExact(before: Image, dirty: Image, l: Layout)
    requires Fits(l, before) && |dirty| == |before|
    requires forall k: nat :: k < |before| && !InFields(l, k) ==> dirty[k] == before[k]
    ensures Patch(dirty, l, ReadSnapshot(before, l).value) == before
  {}

  /** A snapshot with the shape a layout reads: an interpreter entry point exactly when the layout has one. */
  predicate Shaped(l: Layout, s: Snapshot) {
    s.interpreterCode.Some? <==> l.interpreterCode.Some?
  }

  predicate Apart(a: nat, b: nat) {
    a + 1 < b || b + 1 < a
  }

  /** No two fields of the layout share a word. */
  predicate FieldsApart(l: Layout) {
    && (l.flags < l.jniCode || l.jniCode + 1 < l.flags)
    && (l.flags < l.quickCode || l.quickCode + 1 < l.flags)
    && Apart(l.jniCode, l.quickCode)
    && (l.interpreterCode.Some? ==>
          var i := l.interpreterCode.value;
          && (l.flags < i || i + 1 < l.flags)
          && Apart(l.jniCode, i)
          && Apart(l.quickCode, i))
  }

  lemma PutReads(image: Image, at: nat, p: Pointer)
    requires at + 1 < |image|
    ensures PointerAt(PutPointer(image, at, p), at) == p
  {}

  lemma PutKeepsApart(image: Image, at: nat, p: Pointer, other: nat)
    requires at + 1 < |image| && other + 1 < |image| && Apart(at, other)
    ensures PointerAt(PutPointer(image, at, p), other) == PointerAt(image, other)
  {}

  lemma PutKeepsWord(image: Image, at: nat, p: Pointer, k: nat)
    requires at + 1 < |image| && k < |image| && k != at && k != at + 1
    ensures PutPointer(image, at, p)[k] == image[k]
  {}

  lemma ApartReadsBack(image: Image, l: Layout, s: Snapshot)
    requires Fits(l, image) && FieldsApart(l) && Shaped(l, s)
    ensures ReadSnapshot(Patch(image, l, s), l) == Some(s)
  {
    hide PutPointer, PointerAt;
    var flagged := image[l.flags := s.accessFlags];
    var jni := PutPointer(flagged, l.jniCode, s.jniCode);
    var quick := PutPointer(jni, l.quickCode, s.quickCode);
    PutKeepsWord(flagged, l.jniCode, s.jniCode, l.flags);
    PutKeepsWord(jni, l.quickCode, s.quickCode, l.flags);
    PutReads(flagged, l.jniCode, s.jniCode);
    PutKeepsApart(jni, l.quickCode, s.quickCode, l.jniCode);
    PutReads(jni, l.quickCode, s.quickCode);
    if l.interpreterCode.Some? {
      var at, p := l.interpreterCode.value, s.interpreterCode.value;
      PutKeepsWord(quick, at, p, l.flags);
      PutKeepsApart(quick, at, p, l.jniCode);
      PutKeepsApart(quick, at, p, l.quickCode);
      PutReads(quick, at, p);
    }
  }

  /** A snapshot whose words all differ. */
  function DistinctWords(l: Layout): Snapshot {
    Snapshot(1, Pointer(2, 3), Pointer(4, 5), if l.interpreterCode.Some? then Some(Pointer(6, 7)) else None)
  }

  lemma DistinctShowsOverlap(image: Image, l: Layout)
    requires Fits(l, image) && ReadSnapshot(Patch(image, l, DistinctWords(l)), l) == Some(DistinctWords(l))
    ensures FieldsApart(l)
  {
    var p := Patch(image, l, DistinctWords(l));
    hide Patch;
    assert p[l.flags] == 1 && p[l.jniCode] == 2 && p[l.jniCode + 1] == 3;
    assert p[l.quickCode] == 4 && p[l.quickCode + 1] == 5;
    assert l.interpreterCode.Some? ==> p[l.interpreterCode.value] == 6 && p[l.interpreterCode.value + 1] == 7;
  }

  /** The write reads back for every value exactly when the layout's fields do not overlap. */
  lemma PatchReadsBackExactly(image: Image, l: Layout)
    requires Fits(l, image)
    ensures FieldsApart(l) <==>
            forall s :: Shaped(l, s) ==> ReadSnapshot(Patch(image, l, s), l) == Some(s)
  {
    hide Patch, ReadSnapshot, FieldsApart;
    if FieldsApart(l) {
      forall s | Shaped(l, s) ensures ReadSnapshot(Patch(image, l, s), l) == Some(s) {
        ApartReadsBack(image, l, s);
      }
    } else if ReadSnapshot(Patch(image, l, DistinctWords(l)), l) == Some(DistinctWords(l)) {
      DistinctShowsOverlap(image, l);
    } else {
      assert Shaped(l, DistinctWords(l));
    }
  }

  /** What the read that checks a write reports: the memory itself, a failure, or something else seen there. */
  datatype ReadBack = Faithful | Unreadable | Torn(seen: Snapshot)

  function Observe(image: Image, l: Layout, r: ReadBack): Option<Snapshot> {
    match r
    case Faithful => ReadSnapshot(image, l)
    case Unreadable => None
    case Torn(seen) => Some(seen)
  }

  /** patch_art_method_verified: write, read back, and on anything but the written snapshot write the original. */
  function PatchVerified(image: Image, l: Layout, original: Snapshot, patched: Snapshot, r: ReadBack): (Image, bool)
    requires Fits(l, image)
  {
    var written := Patch(image, l, patched);
    if Observe(written, l, r) == Some(patched) then (written, true) else (Patch(written, l, original), false)
  }

  /** A failed verified write of a method's own snapshot leaves every word of the method as it was. */
  lemma FailedPatchLeavesNoTrace(image: Image, l: Layout, patched: Snapshot, r: ReadBack)
    requires Fits(l, image)
    ensures var v := PatchVerified(image, l, ReadSnapshot(image, l).value, patched, r);
            !v.1 ==> v.0 == image
  {
    PatchKeepsOtherWords(image, l, patched);
    RestoreIsExact(image, Patch(image, l, patched), l);
  }

  // ---------------------------------------------------------------------------
  // The two snapshots a replacement writes

  const STATIC: Word := 0x0000_0008
  const CONSTRUCTOR: Word := 0x0001_0000
  const NATIVE: Word := 0x0000_0100
  const FAST_NATIVE: Word := 0x0008_0000
  const CRITICAL_NATIVE: Word := 0x0020_0000
  const FAST_INTERPRETER_INVOKE: Word := 0x4000_0000
  const NTERP_ENTRY_POINT: Word := 0x0010_0000
  const NTERP_INVOKE: Word := 0x0020_0000
  const SKIP_ACCESS_CHECKS: Word := 0x0008_0000
  const SINGLE_IMPLEMENTATION: Word := 0x0800_0000

  const REMOVED_FROM_CLONE: Word :=
    CRITICAL_NATIVE | FAST_NATIVE | NTERP_ENTRY_POINT | NTERP_INVOKE | FAST_INTERPRETER_INVOKE
    | SINGLE_IMPLEMENTATION | SKIP_ACCESS_CHECKS
  const REMOVED_FROM_ORIGINAL: Word :=
    FAST_INTERPRETER_INVOKE | NTERP_ENTRY_POINT | NTERP_INVOKE | SINGLE_IMPLEMENTATION | SKIP_ACCESS_CHECKS

  predicate IsNative(flags: Word) {
    flags & NATIVE != 0
  }

  predicate KindMatches(s: Snapshot, kind: MethodKind) {
    match kind
    case Static => s.accessFlags & STATIC != 0
    case Instance => s.accessFlags & (STATIC | CONSTRUCTOR) == 0
    case Constructor => s.accessFlags & CONSTRUCTOR != 0
  }

  function ReplacementFlags(flags: Word, dontBother: Word): Word {
    (flags & !REMOVED_FROM_CLONE) | NATIVE | dontBother
  }

  function OriginalFlags(flags: Word, dontBother: Word): Word {
    (flags & !REMOVED_FROM_ORIGINAL) | dontBother
  }

  function PatchedReplacement(original: Snapshot, replacement: Pointer, jniTrampoline: Pointer, dontBother: Word)
    : Snapshot
  {
    Snapshot(ReplacementFlags(original.accessFlags, dontBother), replacement, jniTrampoline, original.interpreterCode)
  }

  function PatchedOriginal(original: Snapshot, thunk: Pointer, dontBother: Word): Snapshot {
    Snapshot(OriginalFlags(original.accessFlags, dontBother), original.jniCode, thunk, original.interpreterCode)
  }

  function CompileDontBother(apiLevel: int): Word {
    if apiLevel >= 27 then 0x0200_0000 else if apiLevel >= 24 then 0x0100_0000 else 0
  }
}
