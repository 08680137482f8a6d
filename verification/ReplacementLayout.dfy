/**
  What the replacement layout that the scan detects (src/art/layout.rs) means for the clone that every
  replacement makes (src/art/replacement/method.rs). The scan derives the method's size from its code
  fields and does not ask whether the access flags lie within it, or apart from them.
*/
module ReplacementLayout {
  import ArtLayout
  import ArtMemory
  import opened ArtMethodImage
  import opened MethodKinds
  import opened MethodReplacement
  import opened MethodReplacementRuns
  import opened Wrappers

  /** The detected layout in the words that images are made of. */
  function InWords(l: ArtLayout.MethodLayout): Layout {
    Layout(l.methodSize / 4, l.accessFlagsOffset / 4, l.jniCodeOffset / 4, l.quickCodeOffset / 4, None)
  }

  /** The quick entry point follows the JNI one, and both lie within the method. */
  predicate CodeInside(l: Layout) {
    l.interpreterCode.None? && l.quickCode == l.jniCode + 2 && l.quickCode + 2 <= l.size
  }

  lemma ShapeOf(apiLevel: int, jniCode: nat, accessFlags: nat)
    ensures var l := ArtLayout.LayoutFrom(apiLevel, 4 * jniCode, 4 * accessFlags);
            CodeInside(InWords(l)) && l.accessFlagsOffset % 4 == 0 && l.methodSize % 4 == 0
  {}

  lemma YieldedShape(q: ArtLayout.Query, method_: ArtMemory.Word)
    requires q.Yields(method_).Some?
    ensures var l := q.Yields(method_).value;
            CodeInside(InWords(l)) && l.accessFlagsOffset % 4 == 0 && l.methodSize % 4 == 0
  {
    hide ArtLayout.Query.Yields, InWords, CodeInside;
    var jniCode, accessFlags := ArtLayout.YieldedFrom(q, method_);
    ShapeOf(q.apiLevel, jniCode, accessFlags);
  }

  // ---------------------------------------------------------------------------
  // When a clone can be made

  lemma CopyReadsBack(image: Image, l: Layout)
    requires Fits(l, image) && CodeInside(l)
    ensures ReadSnapshot(image[..l.size], l) == (if l.flags < l.size then ReadSnapshot(image, l) else None)
  {}

  /** The flags a clone of this original gets. */
  function ClonedFlags(original: Snapshot): Word {
    PatchedReplacement(original, NULL, NULL, CompileDontBother(30)).accessFlags
  }

  /** A request that writes one and the same word everywhere, which no overlap can disturb. */
  function UniformRequest(l: Layout, original: Snapshot): Request {
    var word := ClonedFlags(original);
    Request([], Instance, Pointer(word, word), l, Pointer(word, word), 30)
  }

  /** A request whose words all differ, which shows any overlap. */
  function DistinctRequest(l: Layout, original: Snapshot): Request {
    var word := ClonedFlags(original);
    Request([], Instance, Pointer(word + 1, word + 2), l, Pointer(word + 3, word + 4), 30)
  }

  lemma UniformCloneSucceeds(image: Image, l: Layout)
    requires Fits(l, image) && CodeInside(l) && l.flags < l.size
    ensures var original := ReadSnapshot(image, l).value;
            ClonedImage(image, UniformRequest(l, original), original).Some?
  {
    CopyReadsBack(image, l);
  }

  lemma DistinctCloneShowsOverlap(image: Image, l: Layout)
    requires Fits(l, image) && CodeInside(l)
    ensures var original := ReadSnapshot(image, l).value;
            ClonedImage(image, DistinctRequest(l, original), original).Some? ==> l.flags < l.size && FieldsApart(l)
  {
    CopyReadsBack(image, l);
  }

  lemma CloneOfApartFields(image: Image, q: Request)
    requires Fits(q.layout, image) && CodeInside(q.layout) && q.layout.flags < q.layout.size && FieldsApart(q.layout)
    ensures ClonedImage(image, q, ReadSnapshot(image, q.layout).value).Some?
  {
    CopyReadsBack(image, q.layout);
    PatchReadsBackExactly(image[..q.layout.size], q.layout);
  }

  /** Some request can be cloned if and only if the flags lie within the method's size. */
  lemma CloneableExactly(image: Image, l: Layout)
    requires Fits(l, image) && CodeInside(l)
    ensures (exists q: Request :: q.layout == l && ClonedImage(image, q, ReadSnapshot(image, l).value).Some?) <==>
            l.flags < l.size
  {
    var original := ReadSnapshot(image, l).value;
    CopyReadsBack(image, l);
    if l.flags < l.size {
      UniformCloneSucceeds(image, l);
      assert UniformRequest(l, original).layout == l;
    }
  }

  /** Every request can be cloned if and only if they also share no word with the code fields. */
  lemma AlwaysCloneableExactly(image: Image, l: Layout)
    requires Fits(l, image) && CodeInside(l)
    ensures (forall q: Request :: q.layout == l ==> ClonedImage(image, q, ReadSnapshot(image, l).value).Some?) <==>
            l.flags < l.size && FieldsApart(l)
  {
    var original := ReadSnapshot(image, l).value;
    if l.flags < l.size && FieldsApart(l) {
      forall q: Request | q.layout == l ensures ClonedImage(image, q, original).Some? {
        CloneOfApartFields(image, q);
      }
    } else {
      DistinctCloneShowsOverlap(image, l);
      assert DistinctRequest(l, original).layout == l;
    }
  }

  /** For a detected layout: cloning is possible at all exactly when the flags end within the method. */
  lemma DetectedCloneable(scan: ArtLayout.Query, method_: ArtMemory.Word, image: Image)
    requires scan.Yields(method_).Some? && Fits(InWords(scan.Yields(method_).value), image)
    ensures var l := scan.Yields(method_).value;
            (exists q: Request :: q.layout == InWords(l)
                                  && ClonedImage(image, q, ReadSnapshot(image, InWords(l)).value).Some?) <==>
            l.accessFlagsOffset + 4 <= l.methodSize
  {
    YieldedShape(scan, method_);
    CloneableExactly(image, InWords(scan.Yields(method_).value));
  }

  /** With flags at or past the size, an install that finds its method always fails at the clone. */
  lemma FlagsOutsideNeverInstall(w: World, q: Request, a: Answers)
    requires Linked(w) && Fresh(w, a) && CodeInside(q.layout) && q.layout.size <= q.layout.flags
    ensures InstallStep(w, q, a).1.Err?
    ensures q.replacement != NULL && a.ready && Chosen(w, q, a, 0) < |q.candidates| ==>
              InstallStep(w, q, a).1 == Err(CloneFailed)
  {
    var k := Chosen(w, q, a, 0);
    if k < |q.candidates| {
      CopyReadsBack(w.images[q.candidates[k]], q.layout);
    }
  }

  // ---------------------------------------------------------------------------
  // When the declaring class, which the clone takes from its patched method, disturbs the clone

  /** The method can be cloned, and the clone leads to the replacement also after it took word 0 of the method. */
  predicate StillLeads(image: Image, q: Request, thunk: Pointer)
    requires Fits(q.layout, image)
  {
    var original := ReadSnapshot(image, q.layout).value;
    var dontBother := CompileDontBother(q.apiLevel);
    var clone := ClonedImage(image, q, original);
    && clone.Some? && 0 < q.layout.size
    && ReadSnapshot(clone.value[0 := Patch(image, q.layout, PatchedOriginal(original, thunk, dontBother))[0]], q.layout)
       == Some(PatchedReplacement(original, q.replacement, q.jniTrampoline, dontBother))
  }

  lemma StillLeadsExactly(image: Image, q: Request, thunk: Pointer)
    requires Fits(q.layout, image) && CodeInside(q.layout) && q.layout.flags < q.layout.size && FieldsApart(q.layout)
    ensures StillLeads(image, q, thunk) <==> ClassWordHarmless(q, ReadSnapshot(image, q.layout).value, thunk)
  {
    hide ClonedImage, FieldsApart, ClassWordHarmless, PatchedOriginal, PatchedReplacement, Patch, CompileDontBother;
    var original := ReadSnapshot(image, q.layout).value;
    var patched := PatchedOriginal(original, thunk, CompileDontBother(q.apiLevel));
    CloneOfApartFields(image, q);
    CloneReadsAsReplacement(image, q, original);
    PatchedShape(q, original, thunk);
    ApartReadsBack(image, q.layout, patched);
    var clone := ClonedImage(image, q, original).value;
    SynchronizedCloneReads(q, original, thunk, clone, Patch(image, q.layout, patched));
  }

  /** A request whose replacement starts with another word than the method's own JNI code. */
  function OtherRequest(l: Layout, original: Snapshot): Request {
    Request([], Instance, Pointer(original.jniCode.lo + 1, 0), l, NULL, 30)
  }

  /** For one method, under every request: neither code field starts it, nor do the flags unless it is native. */
  lemma MethodLeadsExactly(image: Image, l: Layout)
    requires Fits(l, image) && CodeInside(l) && l.flags < l.size && FieldsApart(l)
    ensures (forall q: Request, thunk :: q.layout == l ==> StillLeads(image, q, thunk)) <==>
            l.jniCode != 0 && (l.flags == 0 ==> IsNative(ReadSnapshot(image, l).value.accessFlags))
  {
    hide StillLeads, FieldsApart, IsNative;
    var original := ReadSnapshot(image, l).value;
    StillLeadsExactly(image, OtherRequest(l, original), NULL);
    forall q: Request, thunk | q.layout == l
      ensures StillLeads(image, q, thunk) <==> ClassWordHarmless(q, original, thunk)
    {
      StillLeadsExactly(image, q, thunk);
    }
  }

  lemma BlankIsNotNative(l: Layout)
    requires Fits(l, seq(l.size, _ => 0))
    ensures !IsNative(ReadSnapshot(seq(l.size, _ => 0), l).value.accessFlags)
  {}

  /** For every method, under every request: word 0 is not a field. */
  lemma AlwaysLeadsExactly(l: Layout)
    requires CodeInside(l) && l.flags < l.size && FieldsApart(l)
    ensures (forall image, q: Request, thunk :: Fits(l, image) && q.layout == l ==> StillLeads(image, q, thunk)) <==>
            !InFields(l, 0)
  {
    hide StillLeads, ReadSnapshot, FieldsApart, IsNative;
    var blank: Image := seq(l.size, _ => 0);
    BlankIsNotNative(l);
    MethodLeadsExactly(blank, l);
    forall image, q: Request, thunk | Fits(l, image) && q.layout == l && !InFields(l, 0)
      ensures StillLeads(image, q, thunk)
    {
      MethodLeadsExactly(image, l);
    }
  }

  // ---------------------------------------------------------------------------
  // Such a layout can be detected

  /** A pointer into the runtime module at byte 0 of the method, the flags of a native method at byte 32. */
  function OddByte(a: nat): ArtMemory.U8 {
    if a == 0x1001 then 0x50 else if a == 0x1020 then 0x09 else if a == 0x1021 then 0x01 else 0
  }

  function OddMemory(): ArtMemory.Memory {
    ArtMemory.OfBytes([ArtMemory.MemoryRange(0x1000, 0x2000, false, true)], OddByte)
  }

  const ODD_SCAN := ArtLayout.Query(OddMemory(), ArtMemory.ModuleRange(0x5000, 0x6000), 30, true)

  lemma OddWordsReadable(k: nat)
    requires k < 16
    ensures OddMemory().Contains(0x1000, 64) && OddMemory().Contains(0x1000 + 4 * k, 4)
    ensures OddMemory().Contains(0x1000, 16) && OddMemory().Contains(0x1000 + 4 * k, 8)
  {
    assert OddMemory().ranges[0].Covers(0x1000, 64) && OddMemory().ranges[0].Covers(0x1000 + 4 * k, 8);
    assert OddMemory().ranges[0] in OddMemory().ranges;
  }

  lemma OddHalves(j: nat)
    ensures ArtMemory.U16Of(OddByte, 0x1000 + 2 * j) == if j == 0 then 0x5000 else if j == 16 then 0x0109 else 0
  {
    assert 2 * j + 1 != 0x20;
  }

  lemma OddWords(k: nat)
    ensures ArtMemory.U32Of(OddByte, 0x1000 + 4 * k) == if k == 0 then 0x5000 else if k == 8 then 0x0109 else 0
  {
    hide ArtMemory.U16Of, OddByte;
    OddHalves(2 * k);
    OddHalves(2 * k + 1);
    assert 0x1000 + 2 * (2 * k) == 0x1000 + 4 * k && 0x1000 + 2 * (2 * k + 1) == 0x1000 + 4 * k + 2;
  }

  lemma OddPointer()
    ensures ArtMemory.U64Of(OddByte, 0x1000) == 0x5000
  {
    hide ArtMemory.U32Of, OddByte;
    OddWords(0);
    OddWords(1);
  }

  lemma OddFlags(k: nat)
    requires k < 16
    ensures ODD_SCAN.Words(0x1000, ArtLayout.AccessFlags)(k) <==> k == 8
  {
    hide OddByte, ArtMemory.U32Of, ArtMemory.Memory.Contains;
    OddWordsReadable(k);
    OddWords(k);
  }

  lemma OddFirstFlags()
    ensures ODD_SCAN.FirstFlags(0x1000, 16) == Some(8)
  {
    hide ArtLayout.First;
    var flags := ODD_SCAN.Words(0x1000, ArtLayout.AccessFlags);
    ArtLayout.FirstIsLowest(flags, 16);
    OddFlags(8);
    if ArtLayout.First(flags, 16).Some? {
      OddFlags(ArtLayout.First(flags, 16).value);
    }
  }

  lemma OddFirstNative()
    ensures ODD_SCAN.FirstNative(0x1000, 16) == Some(0)
  {
    hide ArtLayout.First, OddByte, ArtMemory.U64Of, ArtMemory.U32Of, ArtMemory.Memory.Contains;
    var native := ODD_SCAN.Words(0x1000, ArtLayout.NativeEntry(ODD_SCAN.runtime));
    ArtLayout.FirstIsLowest(native, 16);
    OddWordsReadable(0);
    OddPointer();
    assert native(0);
  }

  /** A method of sixteen bytes whose flags are said to stand at byte 32. */
  lemma FlagsOutsideDetected()
    ensures ODD_SCAN.Yields(0x1000) == Some(ArtLayout.MethodLayout(16, 32, 0, 8, None))
  {
    hide ArtLayout.First, ArtLayout.Hit;
    OddFirstFlags();
    OddFirstNative();
    OddWordsReadable(0);
  }
}
