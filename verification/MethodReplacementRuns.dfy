/**
  Any number of replacements over any run: installs, reverts and drops that may fail at every point,
  interleaved with ART's own writes to its methods. Each operation is one step.
*/
module MethodReplacementRuns {
  import opened Wrappers
  import opened ArtMethodImage
  import opened MethodReplacement

  // ---------------------------------------------------------------------------
  // One install

  /** A failed install leaves the registry, the mapped memory and every word of every method as it found them. */
  lemma FailedInstallLeavesNoTrace(w: World, q: Request, a: Answers)
    requires Linked(w) && Fresh(w, a)
    ensures InstallStep(w, q, a).1.Err? ==> InstallStep(w, q, a).0 == w
  {
    var k := Chosen(w, q, a, 0);
    if q.replacement != NULL && a.ready && k < |q.candidates| && InstallStep(w, q, a).1 == Err(PatchFailed) {
      var m := q.candidates[k];
      var original := SnapshotOf(w, q, a, m).value;
      FailedPatchLeavesNoTrace(
        w.images[m], q.layout,
        PatchedOriginal(original, a.thunk.value, CompileDontBother(q.apiLevel)), a.readBack);
      assert w.images[m := w.images[m]] == w.images;
    }
  }

  /** An install is refused as unresolvable exactly when no candidate is readable and of the requested kind. */
  lemma UnresolvedExactly(w: World, q: Request, a: Answers)
    requires Linked(w) && Fresh(w, a) && q.replacement != NULL && a.ready
    ensures var r := InstallStep(w, q, a).1;
            (r.Err? && (r.error.WrongKind? || r.error.NoReadableCandidate?)) <==>
            forall c <- q.candidates :: !Matching(w, q, a, c)
    ensures !(InstallStep(w, q, a).1.Err? && InstallStep(w, q, a).1.error.NoMatchingCandidate?)
  {}

  /**
    The clone takes word 0 of its patched method, the declaring class. That leaves the clone's fields as they
    were when word 0 is none of them, or when the two methods hold the same word there.
  */
  predicate ClassWordHarmless(q: Request, original: Snapshot, thunk: Pointer) {
    && (q.layout.flags == 0 ==> IsNative(original.accessFlags))
    && (q.layout.jniCode == 0 ==> original.jniCode.lo == q.replacement.lo)
    && (q.layout.quickCode == 0 ==> thunk.lo == q.jniTrampoline.lo)
  }

  lemma OriginalFlagsInBits(flags: Word, dontBother: Word)
    ensures OriginalFlags(flags, dontBother) == (flags & 0xb7c7_ffff) | dontBother
  {
    assert !REMOVED_FROM_ORIGINAL == 0xb7c7_ffff;
  }

  lemma ReplacementFlagsInBits(flags: Word, dontBother: Word)
    ensures ReplacementFlags(flags, dontBother) == (flags & 0xb7c7_ffff) | 0x100 | dontBother
  {
    assert !REMOVED_FROM_CLONE == 0xb7c7_ffff;
  }

  /** Clone and method lose the same flags; only the clone is made native. */
  lemma SameFlagsExactly(flags: Word, dontBother: Word)
    requires dontBother & 0x100 == 0
    ensures OriginalFlags(flags, dontBother) == ReplacementFlags(flags, dontBother) <==> IsNative(flags)
  {
    hide OriginalFlags, ReplacementFlags;
    OriginalFlagsInBits(flags, dontBother);
    ReplacementFlagsInBits(flags, dontBother);
  }

  lemma NotNative(apiLevel: int)
    ensures CompileDontBother(apiLevel) & 0x100 == 0
  {}

  /** The condition in terms of the two patched snapshots. */
  lemma HarmlessMeans(q: Request, original: Snapshot, thunk: Pointer)
    ensures var dontBother := CompileDontBother(q.apiLevel);
            var method_ := PatchedOriginal(original, thunk, dontBother);
            var clone := PatchedReplacement(original, q.replacement, q.jniTrampoline, dontBother);
            && method_.interpreterCode == clone.interpreterCode
            && (ClassWordHarmless(q, original, thunk) <==>
                && (q.layout.flags == 0 ==> method_.accessFlags == clone.accessFlags)
                && (q.layout.jniCode == 0 ==> method_.jniCode.lo == clone.jniCode.lo)
                && (q.layout.quickCode == 0 ==> method_.quickCode.lo == clone.quickCode.lo))
  {
    hide CompileDontBother, OriginalFlags, ReplacementFlags, IsNative;
    NotNative(q.apiLevel);
    SameFlagsExactly(original.accessFlags, CompileDontBother(q.apiLevel));
  }

  lemma ReadsWithNewWord(image: Image, l: Layout, word: Word)
    requires Fits(l, image) && 0 < |image|
    ensures ReadSnapshot(image[0 := word], l) == ReadSnapshot(image, l) <==> !InFields(l, 0) || word == image[0]
  {}

  /** Word 0 of two images, when it is a field of the layout, is told by their snapshots. */
  lemma FieldAtZero(a: Image, b: Image, l: Layout)
    requires Fits(l, a) && Fits(l, b) && 0 < |a| && 0 < |b|
    requires l.interpreterCode.Some? ==> PointerAt(a, l.interpreterCode.value) == PointerAt(b, l.interpreterCode.value)
    ensures !InFields(l, 0) || a[0] == b[0] <==>
            && (l.flags == 0 ==> a[l.flags] == b[l.flags])
            && (l.jniCode == 0 ==> PointerAt(a, l.jniCode).lo == PointerAt(b, l.jniCode).lo)
            && (l.quickCode == 0 ==> PointerAt(a, l.quickCode).lo == PointerAt(b, l.quickCode).lo)
  {}

  /** After synchronisation the clone still reads as the replacement exactly when the class word is harmless. */
  lemma SynchronizedCloneReads(q: Request, original: Snapshot, thunk: Pointer, clone: Image, written: Image)
    requires Fits(q.layout, clone) && Fits(q.layout, written) && 0 < |clone| && 0 < |written|
    requires ReadSnapshot(clone, q.layout) ==
             Some(PatchedReplacement(original, q.replacement, q.jniTrampoline, CompileDontBother(q.apiLevel)))
    requires ReadSnapshot(written, q.layout) == Some(PatchedOriginal(original, thunk, CompileDontBother(q.apiLevel)))
    ensures ReadSnapshot(clone[0 := written[0]], q.layout) == ReadSnapshot(clone, q.layout) <==>
            ClassWordHarmless(q, original, thunk)
  {
    hide InFields, CompileDontBother, PatchedOriginal, PatchedReplacement, ClassWordHarmless;
    HarmlessMeans(q, original, thunk);
    FieldAtZero(written, clone, q.layout);
    ReadsWithNewWord(clone, q.layout, written[0]);
  }

  lemma CloneReadsAsReplacement(image: Image, q: Request, original: Snapshot)
    requires q.layout.size <= |image| && ClonedImage(image, q, original).Some?
    ensures Fits(q.layout, ClonedImage(image, q, original).value) && Shaped(q.layout, original)
    ensures ReadSnapshot(ClonedImage(image, q, original).value, q.layout) ==
            Some(PatchedReplacement(original, q.replacement, q.jniTrampoline, CompileDontBother(q.apiLevel)))
  {}

  lemma WrittenReadsAsPatched(image: Image, l: Layout, original: Snapshot, patched: Snapshot, r: ReadBack)
    requires Fits(l, image) && Shaped(l, patched) && (r.Faithful? || FieldsApart(l))
    requires PatchVerified(image, l, original, patched, r).1
    ensures var written := PatchVerified(image, l, original, patched, r).0;
            Fits(l, written) && ReadSnapshot(written, l) == Some(patched)
  {
    if FieldsApart(l) {
      ApartReadsBack(image, l, patched);
    }
  }

  /**
    What a successful install put in place: the method itself leads to the thunk and is otherwise intact, no
    other method changed, and its clone leads to the replacement through the JNI trampoline exactly when the
    declaring-class word it was given is harmless.
  */
  lemma InstalledMethodLeadsToReplacement(w: World, q: Request, a: Answers)
    requires Linked(w) && Fresh(w, a) && InstallStep(w, q, a).1.Ok? && (a.readBack.Faithful? || FieldsApart(q.layout))
    ensures var (s, r) := InstallStep(w, q, a);
            var g := r.value;
            var dontBother := CompileDontBother(q.apiLevel);
            && g.target in w.images && g.target !in w.methods
            && ReadSnapshot(w.images[g.target], q.layout) == Some(g.original)
            && s.methods == w.methods[g.target := Record(g.clone, g.thunk)]
            && g.target in s.images && s.images == w.images[g.target := s.images[g.target]]
            && ReadSnapshot(s.images[g.target], q.layout) == Some(PatchedOriginal(g.original, g.thunk, dontBother))
            && g.clone in s.clones
            && (ReadSnapshot(s.clones[g.clone], q.layout) ==
                Some(PatchedReplacement(g.original, q.replacement, q.jniTrampoline, dontBother))
                <==> ClassWordHarmless(q, g.original, g.thunk))
  {
    hide ReadSnapshot, ClonedImage, PatchVerified, PatchedOriginal, PatchedReplacement, ClassWordHarmless, FieldsApart;
    hide Linked, KindMatches, CompileDontBother;
    var m := q.candidates[Chosen(w, q, a, 0)];
    var original := SnapshotOf(w, q, a, m).value;
    var patched := PatchedOriginal(original, a.thunk.value, CompileDontBother(q.apiLevel));
    MatchingFits(w, q, a, m);
    CloneReadsAsReplacement(w.images[m], q, original);
    PatchedShape(q, original, a.thunk.value);
    WrittenReadsAsPatched(w.images[m], q.layout, original, patched, a.readBack);
    var written := PatchVerified(w.images[m], q.layout, original, patched, a.readBack).0;
    PatchVerifiedKeepsLength(w.images[m], q.layout, original, patched, a.readBack);
    SynchronizedCloneReads(q, original, a.thunk.value, ClonedImage(w.images[m], q, original).value, written);
  }

  lemma PatchedShape(q: Request, original: Snapshot, thunk: Pointer)
    requires Shaped(q.layout, original)
    ensures Shaped(q.layout, PatchedOriginal(original, thunk, CompileDontBother(q.apiLevel)))
  {}

  /** Equal in every word outside the layout's fields. */
  ghost predicate Agree(l: Layout, a: Image, b: Image) {
    |a| == |b| && forall k: nat :: k < |a| && !InFields(l, k) ==> a[k] == b[k]
  }

  /** The method a successful install wrote to, and nothing else. */
  ghost predicate ImageInstalled(w: World, installed: World, g: GuardState) {
    && g.target in w.images && Fits(g.layout, w.images[g.target]) && !g.reverted && !g.leaked
    && ReadSnapshot(w.images[g.target], g.layout) == Some(g.original)
    && g.target in installed.images && installed.images == w.images[g.target := installed.images[g.target]]
    && Agree(g.layout, installed.images[g.target], w.images[g.target])
  }

  /** Its registration and its memory. */
  ghost predicate RecordInstalled(w: World, installed: World, g: GuardState) {
    && g.target !in w.methods && installed.methods == w.methods[g.target := Record(g.clone, g.thunk)]
    && g.clone !in w.replacements && installed.replacements == w.replacements[g.clone := g.target]
    && g.clone !in w.clones && installed.clones.Keys == w.clones.Keys + {g.clone}
    && g.thunk !in w.thunks && installed.thunks == w.thunks + {g.thunk}
  }

  ghost predicate JustInstalled(w: World, installed: World, g: GuardState) {
    ImageInstalled(w, installed, g) && RecordInstalled(w, installed, g)
  }

  lemma PatchAgrees(image: Image, l: Layout, s: Snapshot)
    requires Fits(l, image)
    ensures Agree(l, Patch(image, l, s), image)
  {
    PatchKeepsOtherWords(image, l, s);
  }

  lemma InstallLeavesImage(w: World, q: Request, a: Answers)
    requires Linked(w) && Fresh(w, a) && InstallStep(w, q, a).1.Ok?
    ensures ImageInstalled(w, InstallStep(w, q, a).0, InstallStep(w, q, a).1.value)
  {
    hide Patch, ReadSnapshot, ClonedImage, PatchedOriginal, Linked, KindMatches, Fits, Agree, Observe;
    var m := q.candidates[Chosen(w, q, a, 0)];
    var original := SnapshotOf(w, q, a, m).value;
    MatchingFits(w, q, a, m);
    PatchAgrees(w.images[m], q.layout, PatchedOriginal(original, a.thunk.value, CompileDontBother(q.apiLevel)));
  }

  lemma InstallOnLeavesRecord(w: World, q: Request, a: Answers, m: Pointer)
    requires Linked(w) && Fresh(w, a) && Matching(w, q, a, m) && InstallOnStep(w, q, a, m).1.Ok?
    ensures RecordInstalled(w, InstallOnStep(w, q, a, m).0, InstallOnStep(w, q, a, m).1.value)
  {
    hide PatchVerified, ReadSnapshot, ClonedImage, PatchedOriginal, Linked, KindMatches;
  }

  lemma InstallLeavesRecord(w: World, q: Request, a: Answers)
    requires Linked(w) && Fresh(w, a) && InstallStep(w, q, a).1.Ok?
    ensures RecordInstalled(w, InstallStep(w, q, a).0, InstallStep(w, q, a).1.value)
  {
    hide InstallOnStep, RecordInstalled, Linked, Fresh, Matching;
    InstallOnLeavesRecord(w, q, a, q.candidates[Chosen(w, q, a, 0)]);
  }

  /** What a successful install leaves, whatever the clones of other methods were synchronized to. */
  lemma InstallLeaves(w: World, q: Request, a: Answers)
    requires Linked(w) && Fresh(w, a) && InstallStep(w, q, a).1.Ok?
    ensures JustInstalled(w, InstallStep(w, q, a).0, InstallStep(w, q, a).1.value)
  {
    hide InstallStep, ImageInstalled, RecordInstalled, Linked, Fresh;
    InstallLeavesImage(w, q, a);
    InstallLeavesRecord(w, q, a);
  }

  lemma DropUndoes(w: World, installed: World, g: GuardState)
    requires JustInstalled(w, installed, g)
    ensures Restorable(installed, g)
    ensures var (dropped, last) := DropStep(installed, g, RestoreAnswers(true, Faithful));
            && dropped.images == w.images && dropped.methods == w.methods && dropped.replacements == w.replacements
            && dropped.thunks == w.thunks && dropped.clones.Keys == w.clones.Keys
            && last.reverted && !last.leaked
  {
    RestoreIsExact(w.images[g.target], installed.images[g.target], g.layout);
    assert installed.images[g.target := w.images[g.target]] == w.images;
    RemoveInserted(w.methods, g.target, Record(g.clone, g.thunk));
    RemoveInserted(w.replacements, g.clone, g.target);
    RemoveAdded(w.thunks, g.thunk);
  }

  /**
    Dropping a guard right after its install, when the restore can be carried out and verified, undoes the
    install: the methods, the registry and the mapped memory are what they were. Clones of other methods keep
    the declaring class they were synchronized to.
  */
  lemma InstallThenDropUndoes(w: World, q: Request, a: Answers, installed: World, g: GuardState)
    requires Linked(w) && Fresh(w, a) && InstallStep(w, q, a) == (installed, Ok(g))
    ensures Restorable(installed, g)
    ensures var (dropped, last) := DropStep(installed, g, RestoreAnswers(true, Faithful));
            && dropped.images == w.images && dropped.methods == w.methods && dropped.replacements == w.replacements
            && dropped.thunks == w.thunks && dropped.clones.Keys == w.clones.Keys
            && last.reverted && !last.leaked
  {
    InstallLeaves(w, q, a);
    DropUndoes(w, installed, g);
  }

  /** Reverting again after a revert succeeded succeeds and changes nothing, whatever the environment answers. */
  lemma RevertIsIdempotent(w: World, g: GuardState, a: RestoreAnswers, again: RestoreAnswers)
    requires Restorable(w, g) && RevertStep(w, g, a).2
    ensures Restorable(RevertStep(w, g, a).0, RevertStep(w, g, a).1)
    ensures var (world, guard, _) := RevertStep(w, g, a);
            guard.reverted && RevertStep(world, guard, again) == (world, guard, true)
  {}

  // ---------------------------------------------------------------------------
  // Runs

  /** A guard, and whether it was dropped. */
  datatype Slot = Slot(guard: GuardState, dropped: bool)

  /** The process and its guards; `untouched` is an observer's copy of the methods that only ART writes to. */
  datatype System = System(world: World, guards: seq<Slot>, untouched: map<Pointer, Image>)

  datatype Event =
    | Replace(q: Request, a: Answers)
    | RevertGuard(i: nat, answers: RestoreAnswers)
    | DropGuard(i: nat, answers: RestoreAnswers)
    | ArtWrites(m: Pointer, at: nat, word: Word)
    | SynchronizeHook

  function Start(images: map<Pointer, Image>): (s: System)
    ensures Inv(s)
  {
    System(World(images, map[], map[], map[], {}), [], images)
  }

  /** The guard's method is still patched, as far as the crate knows. */
  predicate Holds(slot: Slot) {
    slot.guard.leaked || !slot.guard.reverted
  }

  /** The guard's clone and thunk have not been unmapped. */
  predicate Maps(slot: Slot) {
    slot.guard.leaked || !slot.dropped
  }

  ghost predicate HeldAt(s: System, m: Pointer, at: nat) {
    exists i :: 0 <= i < |s.guards| && Holds(s.guards[i]) && s.guards[i].guard.target == m
                && InFields(s.guards[i].guard.layout, at)
  }

  ghost predicate ImageOk(s: System, m: Pointer) {
    && (m in s.world.images <==> m in s.untouched)
    && (m in s.world.images ==> |s.world.images[m]| == |s.untouched[m]|)
    && (m in s.world.images && m !in s.world.methods ==> s.world.images[m] == s.untouched[m])
  }

  ghost predicate SlotOk(s: System, slot: Slot) {
    var g := slot.guard;
    && (Maps(slot) ==> g.clone in s.world.clones && g.thunk in s.world.thunks)
    && (Holds(slot) ==>
          Maps(slot) && g.target in s.world.methods && s.world.methods[g.target] == Record(g.clone, g.thunk))
    && g.target in s.world.images && g.target in s.untouched && Fits(g.layout, s.world.images[g.target])
    && (Holds(slot) ==>
          && ReadSnapshot(s.untouched[g.target], g.layout) == Some(g.original)
          && Agree(g.layout, s.world.images[g.target], s.untouched[g.target]))
  }

  ghost predicate SlotsOk(s: System) {
    forall i :: 0 <= i < |s.guards| ==> SlotOk(s, s.guards[i]) && (s.guards[i].dropped || !s.guards[i].guard.leaked)
  }

  /** No two guards own the same clone or the same thunk. */
  ghost predicate Disjoint(guards: seq<Slot>) {
    forall i, j :: 0 <= i < j < |guards| && Maps(guards[i]) && Maps(guards[j]) ==>
      guards[i].guard.clone != guards[j].guard.clone && guards[i].guard.thunk != guards[j].guard.thunk
  }

  /** Every registration, clone and thunk belongs to a guard. */
  ghost predicate HasHolder(s: System, m: Pointer) {
    m in s.world.methods ==> exists i :: 0 <= i < |s.guards| && Holds(s.guards[i]) && s.guards[i].guard.target == m
  }

  ghost predicate HasOwner(s: System, block: Pointer) {
    && (block in s.world.clones ==>
          exists i :: 0 <= i < |s.guards| && Maps(s.guards[i]) && s.guards[i].guard.clone == block)
    && (block in s.world.thunks ==>
          exists i :: 0 <= i < |s.guards| && Maps(s.guards[i]) && s.guards[i].guard.thunk == block)
  }

  ghost predicate Inv(s: System) {
    && Linked(s.world)
    && (forall m :: ImageOk(s, m))
    && SlotsOk(s)
    && Disjoint(s.guards)
    && (forall m :: HasHolder(s, m))
    && (forall b :: HasOwner(s, b))
  }

  /**
    What may happen next: mmap answers with unused memory, a guard is used only while it exists, and ART
    leaves the replaced fields of a replaced method alone.
  */
  ghost predicate Legal(s: System, e: Event) {
    match e
    case Replace(q, a) => Fresh(s.world, a)
    case RevertGuard(i, _) => i < |s.guards| && !s.guards[i].dropped
    case DropGuard(i, _) => i < |s.guards| && !s.guards[i].dropped
    case ArtWrites(m, at, _) => m in s.world.images && at < |s.world.images[m]| && !HeldAt(s, m, at)
    case SynchronizeHook => true
  }

  function Written(images: map<Pointer, Image>, m: Pointer, at: nat, word: Word): map<Pointer, Image> {
    if m in images && at < |images[m]| then images[m := images[m][at := word]] else images
  }

  function Apply(s: System, e: Event): System
    requires Inv(s) && Legal(s, e)
  {
    match e
    case Replace(q, a) =>
      var (world, r) := InstallStep(s.world, q, a);
      System(world, if r.Ok? then s.guards + [Slot(r.value, false)] else s.guards, s.untouched)
    case RevertGuard(i, answers) =>
      assert SlotOk(s, s.guards[i]);
      var (world, guard, _) := RevertStep(s.world, s.guards[i].guard, answers);
      System(world, s.guards[i := Slot(guard, false)], s.untouched)
    case DropGuard(i, answers) =>
      assert SlotOk(s, s.guards[i]);
      var (world, guard) := DropStep(s.world, s.guards[i].guard, answers);
      System(world, s.guards[i := Slot(guard, true)], s.untouched)
    case ArtWrites(m, at, word) =>
      s.(world := s.world.(images := Written(s.world.images, m, at, word)),
         untouched := Written(s.untouched, m, at, word))
    case SynchronizeHook => s.(world := Synchronized(s.world))
  }

  // ---------------------------------------------------------------------------
  // Each step keeps the invariant

  lemma SynchronizedStaysLinked(w: World)
    requires Linked(w)
    ensures Linked(Synchronized(w)) && Synchronized(w).clones.Keys == w.clones.Keys
  {
    forall m ensures RecordLinked(Synchronized(w), m) && ReverseLinked(Synchronized(w), m) {
      assert RecordLinked(w, m) && ReverseLinked(w, m);
    }
  }

  lemma SynchronizeKeepsInv(s: System)
    requires Inv(s)
    ensures Inv(s.(world := Synchronized(s.world)))
  {
    var t := s.(world := Synchronized(s.world));
    SynchronizedStaysLinked(s.world);
    forall m ensures ImageOk(t, m) && HasHolder(t, m) && HasOwner(t, m) {
      assert ImageOk(s, m) && HasHolder(s, m) && HasOwner(s, m);
    }
    forall i | 0 <= i < |t.guards| ensures SlotOk(t, t.guards[i]) {
      assert SlotOk(s, s.guards[i]);
    }
  }

  /** A write outside the fields of a layout leaves its snapshot and what agrees outside the fields. */
  lemma WriteOutsideFields(l: Layout, a: Image, b: Image, at: nat, word: Word)
    requires Agree(l, a, b) && Fits(l, b) && at < |a| && !InFields(l, at)
    ensures Agree(l, a[at := word], b[at := word]) && ReadSnapshot(b[at := word], l) == ReadSnapshot(b, l)
  {}

  lemma ArtWritesKeepsSlot(s: System, m: Pointer, at: nat, word: Word, i: nat)
    requires Inv(s) && Legal(s, ArtWrites(m, at, word)) && i < |s.guards|
    ensures SlotOk(Apply(s, ArtWrites(m, at, word)), s.guards[i])
  {
    hide Linked, HasHolder, HasOwner, Disjoint, InFields, ReadSnapshot;
    assert SlotOk(s, s.guards[i]) && ImageOk(s, m);
    if Holds(s.guards[i]) && s.guards[i].guard.target == m {
      WriteOutsideFields(s.guards[i].guard.layout, s.world.images[m], s.untouched[m], at, word);
    }
  }

  lemma ArtWritesKeepsInv(s: System, m: Pointer, at: nat, word: Word)
    requires Inv(s) && Legal(s, ArtWrites(m, at, word))
    ensures Inv(Apply(s, ArtWrites(m, at, word)))
  {
    hide SlotOk, Agree, Fits, ReadSnapshot;
    var t := Apply(s, ArtWrites(m, at, word));
    assert ImageOk(s, m);
    forall k
      ensures ImageOk(t, k) && HasHolder(t, k) && HasOwner(t, k)
      ensures RecordLinked(t.world, k) && ReverseLinked(t.world, k)
    {
      assert ImageOk(s, k) && HasHolder(s, k) && HasOwner(s, k);
      assert RecordLinked(s.world, k) && ReverseLinked(s.world, k);
    }
    forall i | 0 <= i < |t.guards| ensures SlotOk(t, t.guards[i]) {
      ArtWritesKeepsSlot(s, m, at, word, i);
    }
  }

  /** A restore that reached the write leaves the method as ART alone would have left it. */
  lemma RestoredIsUntouched(s: System, i: nat)
    requires Inv(s) && i < |s.guards| && Holds(s.guards[i])
    ensures var g := s.guards[i].guard;
            && g.target in s.world.images && g.target in s.untouched && Fits(g.layout, s.world.images[g.target])
            && Patch(s.world.images[g.target], g.layout, g.original) == s.untouched[g.target]
  {}

  /** The state after a restore wrote, whatever its verification said. */
  lemma RestoreKeepsInv(s: System, i: nat)
    requires Inv(s) && i < |s.guards| && Holds(s.guards[i])
    ensures s.guards[i].guard.target in s.world.images && s.guards[i].guard.target in s.untouched
    ensures var m := s.guards[i].guard.target;
            Inv(s.(world := s.world.(images := s.world.images[m := s.untouched[m]])))
  {
    assert SlotOk(s, s.guards[i]);
    var m := s.guards[i].guard.target;
    var t := s.(world := s.world.(images := s.world.images[m := s.untouched[m]]));
    assert ImageOk(s, m);
    forall k
      ensures ImageOk(t, k) && HasHolder(t, k) && HasOwner(t, k)
      ensures RecordLinked(t.world, k) && ReverseLinked(t.world, k)
    {
      assert ImageOk(s, k) && HasHolder(s, k) && HasOwner(s, k);
      assert RecordLinked(s.world, k) && ReverseLinked(s.world, k);
    }
    forall j | 0 <= j < |t.guards| ensures SlotOk(t, t.guards[j]) {
      assert SlotOk(s, s.guards[j]);
    }
  }

  /** Unregistering a restored method and marking its guard reverted. */
  lemma UnregisterKeepsInv(s: System, i: nat)
    requires Inv(s) && i < |s.guards| && Holds(s.guards[i]) && !s.guards[i].dropped
    requires var m := s.guards[i].guard.target;
             m in s.world.images && m in s.untouched && s.world.images[m] == s.untouched[m]
    ensures var g := s.guards[i].guard;
            Inv(System(Unregistered(s.world, g.target), s.guards[i := Slot(g.(reverted := true), false)], s.untouched))
  {
    hide Fits, Agree, ReadSnapshot, HasOwner;
    var g := s.guards[i].guard;
    var t := System(Unregistered(s.world, g.target), s.guards[i := Slot(g.(reverted := true), false)], s.untouched);
    assert SlotOk(s, s.guards[i]);
    assert RecordLinked(s.world, g.target);
    forall k ensures RecordLinked(t.world, k) && ReverseLinked(t.world, k) && ImageOk(t, k) {
      assert RecordLinked(s.world, k) && ReverseLinked(s.world, k) && ImageOk(s, k);
    }
    forall j | 0 <= j < |t.guards| ensures SlotOk(t, t.guards[j]) {
      assert SlotOk(s, s.guards[j]);
    }
    forall k ensures HasHolder(t, k) {
      assert HasHolder(s, k);
      if k in t.world.methods {
        var j :| 0 <= j < |s.guards| && Holds(s.guards[j]) && s.guards[j].guard.target == k;
        assert t.guards[j] == s.guards[j];
      }
    }
    OwnersKept(s, t);
  }

  /** Ownership carries over when no clone or thunk appears and every owner keeps its blocks. */
  lemma OwnersKept(s: System, t: System)
    requires forall b :: HasOwner(s, b)
    requires t.world.clones.Keys <= s.world.clones.Keys && t.world.thunks <= s.world.thunks && |s.guards| <= |t.guards|
    requires forall j :: 0 <= j < |s.guards| && Maps(s.guards[j]) ==>
               || (s.guards[j].guard.clone !in t.world.clones && s.guards[j].guard.thunk !in t.world.thunks)
               || (Maps(t.guards[j]) && t.guards[j].guard.clone == s.guards[j].guard.clone
                   && t.guards[j].guard.thunk == s.guards[j].guard.thunk)
    ensures forall b :: HasOwner(t, b)
  {
    forall b ensures HasOwner(t, b) {
      assert HasOwner(s, b);
      if b in t.world.clones {
        var j :| 0 <= j < |s.guards| && Maps(s.guards[j]) && s.guards[j].guard.clone == b;
        assert Maps(t.guards[j]) && t.guards[j].guard.clone == b;
      }
      if b in t.world.thunks {
        var j :| 0 <= j < |s.guards| && Maps(s.guards[j]) && s.guards[j].guard.thunk == b;
        assert Maps(t.guards[j]) && t.guards[j].guard.thunk == b;
      }
    }
  }

  lemma RevertKeepsInv(s: System, i: nat, answers: RestoreAnswers)
    requires Inv(s) && Legal(s, RevertGuard(i, answers))
    ensures Inv(Apply(s, RevertGuard(i, answers)))
  {
    var slot := s.guards[i];
    assert SlotOk(s, slot) && s.guards[i := slot] == s.guards;
    var g := slot.guard;
    assert slot == Slot(g, false);
    if !g.reverted && answers.ready {
      var m := g.target;
      RestoredIsUntouched(s, i);
      RestoreKeepsInv(s, i);
      var restored := s.(world := s.world.(images := s.world.images[m := s.untouched[m]]));
      if Observe(s.untouched[m], g.layout, answers.readBack) == Some(g.original) {
        UnregisterKeepsInv(restored, i);
      }
    }
  }

  /** Unmapping the clone and the thunk of a reverted guard. */
  lemma ReleaseKeepsInv(s: System, i: nat)
    requires Inv(s) && i < |s.guards| && !s.guards[i].dropped && s.guards[i].guard.reverted
    ensures var g := s.guards[i].guard;
            Inv(System(Released(s.world, g), s.guards[i := Slot(g, true)], s.untouched))
  {
    var g := s.guards[i].guard;
    var t := System(Released(s.world, g), s.guards[i := Slot(g, true)], s.untouched);
    assert SlotOk(s, s.guards[i]);
    forall j | 0 <= j < |t.guards| ensures SlotOk(t, t.guards[j]) {
      assert SlotOk(s, s.guards[j]);
    }
    forall k ensures HasHolder(t, k) {
      assert HasHolder(s, k);
      if k in t.world.methods {
        var j :| 0 <= j < |s.guards| && Holds(s.guards[j]) && s.guards[j].guard.target == k;
        assert t.guards[j] == s.guards[j] && SlotOk(t, t.guards[j]);
      }
    }
    forall k ensures RecordLinked(t.world, k) && ReverseLinked(t.world, k) && ImageOk(t, k) {
      assert RecordLinked(s.world, k) && ReverseLinked(s.world, k) && ImageOk(s, k) && HasHolder(t, k);
      if k in t.world.methods {
        var j :| 0 <= j < |t.guards| && Holds(t.guards[j]) && t.guards[j].guard.target == k;
        assert SlotOk(t, t.guards[j]);
      }
    }
    OwnersKept(s, t);
  }

  /** Giving up on a guard that cannot be reverted: its memory stays mapped and its method registered. */
  lemma LeakKeepsInv(s: System, i: nat)
    requires Inv(s) && i < |s.guards| && Holds(s.guards[i])
    ensures var g := s.guards[i].guard;
            Inv(s.(guards := s.guards[i := Slot(g.(leaked := true, reverted := true), true)]))
  {
    hide Linked, Fits, Agree, ReadSnapshot;
    var g := s.guards[i].guard;
    var t := s.(guards := s.guards[i := Slot(g.(leaked := true, reverted := true), true)]);
    assert SlotOk(s, s.guards[i]);
    forall j | 0 <= j < |t.guards| ensures SlotOk(t, t.guards[j]) {
      assert SlotOk(s, s.guards[j]);
    }
    forall k ensures ImageOk(t, k) && HasHolder(t, k) {
      assert ImageOk(s, k) && HasHolder(s, k);
      if k in t.world.methods {
        var j :| 0 <= j < |s.guards| && Holds(s.guards[j]) && s.guards[j].guard.target == k;
        assert Holds(t.guards[j]) && t.guards[j].guard.target == k;
      }
    }
    OwnersKept(s, t);
  }

  lemma DropKeepsInv(s: System, i: nat, answers: RestoreAnswers)
    requires Inv(s) && Legal(s, DropGuard(i, answers))
    ensures Inv(Apply(s, DropGuard(i, answers)))
  {
    var slot := s.guards[i];
    assert SlotOk(s, slot);
    RevertKeepsInv(s, i, answers);
    var reverted := Apply(s, RevertGuard(i, answers));
    var (world, guard, ok) := RevertStep(s.world, slot.guard, answers);
    if ok {
      ReleaseKeepsInv(reverted, i);
      assert reverted.guards[i := Slot(guard, true)] == s.guards[i := Slot(guard, true)];
    } else {
      LeakKeepsInv(reverted, i);
      var leaked := Slot(guard.(leaked := true, reverted := true), true);
      assert reverted.guards[i := leaked] == s.guards[i := leaked];
    }
  }

  lemma InstallStaysLinked(w: World, q: Request, a: Answers)
    requires Linked(w) && Fresh(w, a) && InstallStep(w, q, a).1.Ok?
    ensures Linked(InstallStep(w, q, a).0)
  {
    hide Patch, ReadSnapshot, PatchedOriginal, RecordLinked, ReverseLinked, KindMatches, Synchronized;
    var m := q.candidates[Chosen(w, q, a, 0)];
    var original := SnapshotOf(w, q, a, m).value;
    MatchingFits(w, q, a, m);
    var written := PatchVerified(w.images[m], q.layout, original,
                                 PatchedOriginal(original, a.thunk.value, CompileDontBother(q.apiLevel)), a.readBack).0;
    var record, clone := Record(a.clone.value, a.thunk.value), ClonedImage(w.images[m], q, original).value;
    InstalledStaysLinked(w, m, written, record, clone);
    SynchronizedStaysLinked(Installed(w, m, written, record, clone));
  }

  /** A new guard: its method was not replaced before, so the snapshot it keeps is the method's own. */
  lemma ReplaceKeepsInv(s: System, q: Request, a: Answers)
    requires Inv(s) && Legal(s, Replace(q, a))
    ensures Inv(Apply(s, Replace(q, a)))
  {
    hide InstallStep, Linked, Agree, Fits, ReadSnapshot, SlotsOk, Disjoint, Fresh;
    if InstallStep(s.world, q, a).1.Err? {
      FailedInstallLeavesNoTrace(s.world, q, a);
    } else {
      InstallLeaves(s.world, q, a);
      InstallStaysLinked(s.world, q, a);
      NewSlotOk(s, Apply(s, Replace(q, a)), InstallStep(s.world, q, a).1.value);
    }
  }

  /** What an install changes, seen from the other guards. */
  ghost predicate Registers(s: System, t: System, g: GuardState) {
    JustInstalled(s.world, t.world, g) && t.guards == s.guards + [Slot(g, false)] && t.untouched == s.untouched
  }

  lemma OldSlotKept(s: System, t: System, g: GuardState, slot: Slot)
    requires Registers(s, t, g) && SlotOk(s, slot)
    ensures SlotOk(t, slot)
  {}

  lemma NewSlotFits(s: System, t: System, g: GuardState)
    requires Registers(s, t, g) && ImageOk(s, g.target)
    ensures SlotOk(t, Slot(g, false))
  {}

  lemma NewSlotImages(s: System, t: System, g: GuardState, k: Pointer)
    requires Registers(s, t, g) && ImageOk(s, k)
    ensures ImageOk(t, k)
  {}

  lemma NewSlotDisjoint(s: System, t: System, g: GuardState)
    requires Registers(s, t, g) && SlotsOk(s) && Disjoint(s.guards)
    ensures Disjoint(t.guards)
  {
    hide Linked, Agree, Fits, ReadSnapshot;
    forall j | 0 <= j < |s.guards| && Maps(s.guards[j])
      ensures s.guards[j].guard.clone != g.clone && s.guards[j].guard.thunk != g.thunk
    {
      assert SlotOk(s, s.guards[j]);
    }
  }

  /** The invariant after an install. */
  lemma NewSlotOk(s: System, t: System, g: GuardState)
    requires Inv(s) && Linked(t.world) && Registers(s, t, g)
    ensures Inv(t)
  {
    hide Linked, Agree, Fits, ReadSnapshot, SlotOk, HasHolder, HasOwner, ImageOk, Disjoint;
    var n := |s.guards|;
    assert ImageOk(s, g.target);
    NewSlotFits(s, t, g);
    NewSlotDisjoint(s, t, g);
    forall j | 0 <= j < n ensures t.guards[j] == s.guards[j] && SlotOk(t, t.guards[j]) {
      OldSlotKept(s, t, g, s.guards[j]);
    }
    forall k ensures ImageOk(t, k) && HasHolder(t, k) && HasOwner(t, k) {
      assert ImageOk(s, k) && HasHolder(s, k) && HasOwner(s, k);
      NewSlotImages(s, t, g, k);
      NewSlotHolds(s, t, g, k);
    }
  }

  lemma NewSlotHolds(s: System, t: System, g: GuardState, k: Pointer)
    requires HasHolder(s, k) && HasOwner(s, k)
    requires t.guards == s.guards + [Slot(g, false)] && !g.leaked && !g.reverted
    requires t.world.methods.Keys == s.world.methods.Keys + {g.target}
    requires t.world.clones.Keys == s.world.clones.Keys + {g.clone} && t.world.thunks == s.world.thunks + {g.thunk}
    ensures HasHolder(t, k) && HasOwner(t, k)
  {
    var n := |s.guards|;
    assert t.guards[n] == Slot(g, false);
    if k in s.world.methods {
      var j :| 0 <= j < n && Holds(s.guards[j]) && s.guards[j].guard.target == k;
      assert t.guards[j] == s.guards[j];
    }
    if k in s.world.clones {
      var j :| 0 <= j < n && Maps(s.guards[j]) && s.guards[j].guard.clone == k;
      assert t.guards[j] == s.guards[j];
    }
    if k in s.world.thunks {
      var j :| 0 <= j < n && Maps(s.guards[j]) && s.guards[j].guard.thunk == k;
      assert t.guards[j] == s.guards[j];
    }
  }

  lemma StepKeepsInv(s: System, e: Event)
    requires Inv(s) && Legal(s, e)
    ensures Inv(Apply(s, e))
  {
    match e
    case Replace(q, a) => ReplaceKeepsInv(s, q, a);
    case RevertGuard(i, answers) => RevertKeepsInv(s, i, answers);
    case DropGuard(i, answers) => DropKeepsInv(s, i, answers);
    case ArtWrites(m, at, word) => ArtWritesKeepsInv(s, m, at, word);
    case SynchronizeHook => SynchronizeKeepsInv(s);
  }

  function Step(s: System, e: Event): (t: System)
    requires Inv(s) && Legal(s, e)
    ensures Inv(t)
  {
    StepKeepsInv(s, e);
    Apply(s, e)
  }

  ghost predicate LegalRun(s: System, events: seq<Event>)
    requires Inv(s)
    decreases |events|
  {
    events == [] || (Legal(s, events[0]) && LegalRun(Step(s, events[0]), events[1..]))
  }

  function Run(s: System, events: seq<Event>): (t: System)
    requires Inv(s) && LegalRun(s, events)
    ensures Inv(t)
    decreases |events|
  {
    if events == [] then s else Run(Step(s, events[0]), events[1..])
  }

  /** What the methods would hold had the crate done nothing: ART's writes alone. */
  function ArtAlone(images: map<Pointer, Image>, events: seq<Event>): map<Pointer, Image>
    decreases |events|
  {
    if events == [] then images
    else
      var e := events[0];
      ArtAlone(if e.ArtWrites? then Written(images, e.m, e.at, e.word) else images, events[1..])
  }

  lemma {:induction false} UntouchedIsArtAlone(s: System, events: seq<Event>)
    requires Inv(s) && LegalRun(s, events)
    ensures Run(s, events).untouched == ArtAlone(s.untouched, events)
    decreases |events|
  {
    if events != [] {
      UntouchedIsArtAlone(Step(s, events[0]), events[1..]);
    }
  }

  /** A method whose words differ from what ART alone would have left is registered, its clone and thunk mapped. */
  lemma PatchedMethodsStayBacked(images: map<Pointer, Image>, events: seq<Event>, m: Pointer)
    requires LegalRun(Start(images), events)
    requires var w := Run(Start(images), events).world;
             m in w.images && m in ArtAlone(images, events) && w.images[m] != ArtAlone(images, events)[m]
    ensures var w := Run(Start(images), events).world;
            m in w.methods && w.methods[m].replacement in w.clones && w.methods[m].thunk in w.thunks
  {
    var s := Run(Start(images), events);
    UntouchedIsArtAlone(Start(images), events);
    assert ImageOk(s, m) && HasHolder(s, m);
    var i :| 0 <= i < |s.guards| && Holds(s.guards[i]) && s.guards[i].guard.target == m;
    assert SlotOk(s, s.guards[i]);
  }

  /** A guard that still holds its method keeps the method's own fields, never another replacement's. */
  lemma SnapshotsArePristine(images: map<Pointer, Image>, events: seq<Event>, i: nat)
    requires LegalRun(Start(images), events)
    requires i < |Run(Start(images), events).guards| && Holds(Run(Start(images), events).guards[i])
    ensures var g := Run(Start(images), events).guards[i].guard;
            g.target in ArtAlone(images, events)
            && ReadSnapshot(ArtAlone(images, events)[g.target], g.layout) == Some(g.original)
  {
    var s := Run(Start(images), events);
    UntouchedIsArtAlone(Start(images), events);
    assert SlotOk(s, s.guards[i]);
  }

  /** At any time at most one guard holds a method. */
  lemma OneGuardPerMethod(images: map<Pointer, Image>, events: seq<Event>, i: nat, j: nat)
    requires LegalRun(Start(images), events)
    requires var guards := Run(Start(images), events).guards;
             && i < |guards| && j < |guards| && Holds(guards[i]) && Holds(guards[j])
             && guards[i].guard.target == guards[j].guard.target
    ensures i == j
  {}

  /** A method that a guard holds, leaked or not, cannot be replaced again; the attempt changes nothing. */
  lemma HeldMethodsRefuseInstall(s: System, i: nat, q: Request, a: Answers)
    requires Inv(s) && i < |s.guards| && Holds(s.guards[i]) && Fresh(s.world, a)
    requires var k := Chosen(s.world, q, a, 0);
             k < |q.candidates| && q.candidates[k] == s.guards[i].guard.target
    ensures InstallStep(s.world, q, a).1.Err? && InstallStep(s.world, q, a).0 == s.world
  {
    assert SlotOk(s, s.guards[i]);
    FailedInstallLeavesNoTrace(s.world, q, a);
  }

  /**
    Once no guard holds a method any more, in whatever order they were reverted, every word of every
    method is what ART alone would have left, and the registry is empty.
  */
  lemma AllRevertedRestoresEverything(images: map<Pointer, Image>, events: seq<Event>)
    requires LegalRun(Start(images), events)
    requires forall slot <- Run(Start(images), events).guards :: !Holds(slot)
    ensures Run(Start(images), events).world.images == ArtAlone(images, events)
    ensures Run(Start(images), events).world.methods == map[] && Run(Start(images), events).world.replacements == map[]
  {
    var s := Run(Start(images), events);
    UntouchedIsArtAlone(Start(images), events);
    forall m ensures m !in s.world.methods && m !in s.world.replacements {
      assert HasHolder(s, m) && ReverseLinked(s.world, m);
      assert m in s.world.replacements ==> HasHolder(s, s.world.replacements[m]);
    }
    forall m ensures m in s.world.images <==> m in s.untouched {
      assert ImageOk(s, m);
    }
    forall m | m in s.world.images ensures s.world.images[m] == s.untouched[m] {
      assert ImageOk(s, m);
    }
  }

  /** No memory is lost: once every guard was dropped, only those whose revert failed still have memory mapped. */
  lemma OnlyFailedRevertsLeak(images: map<Pointer, Image>, events: seq<Event>, b: Pointer)
    requires LegalRun(Start(images), events)
    requires forall slot <- Run(Start(images), events).guards :: slot.dropped
    ensures var s := Run(Start(images), events);
            && (b in s.world.clones <==> exists slot <- s.guards :: slot.guard.leaked && slot.guard.clone == b)
            && (b in s.world.thunks <==> exists slot <- s.guards :: slot.guard.leaked && slot.guard.thunk == b)
  {
    hide Inv, Start, Run, LegalRun;
    ClonesOfLeaked(Run(Start(images), events), b);
    ThunksOfLeaked(Run(Start(images), events), b);
  }

  lemma ClonesOfLeaked(s: System, b: Pointer)
    requires Inv(s) && forall slot <- s.guards :: slot.dropped
    ensures b in s.world.clones <==> exists slot <- s.guards :: slot.guard.leaked && slot.guard.clone == b
  {
    hide Linked, Disjoint, Fits, Agree, ReadSnapshot, ImageOk, HasHolder;
    assert HasOwner(s, b);
    if b in s.world.clones {
      var i :| 0 <= i < |s.guards| && Maps(s.guards[i]) && s.guards[i].guard.clone == b;
      assert s.guards[i] in s.guards;
    }
    forall slot | slot in s.guards && slot.guard.leaked
      ensures slot.guard.clone in s.world.clones
    {
      var i :| 0 <= i < |s.guards| && s.guards[i] == slot;
      assert SlotOk(s, s.guards[i]);
    }
  }

  lemma ThunksOfLeaked(s: System, b: Pointer)
    requires Inv(s) && forall slot <- s.guards :: slot.dropped
    ensures b in s.world.thunks <==> exists slot <- s.guards :: slot.guard.leaked && slot.guard.thunk == b
  {
    hide Linked, Disjoint, Fits, Agree, ReadSnapshot, ImageOk, HasHolder;
    assert HasOwner(s, b);
    if b in s.world.thunks {
      var i :| 0 <= i < |s.guards| && Maps(s.guards[i]) && s.guards[i].guard.thunk == b;
      assert s.guards[i] in s.guards;
    }
    forall slot | slot in s.guards && slot.guard.leaked
      ensures slot.guard.thunk in s.world.thunks
    {
      var i :| 0 <= i < |s.guards| && s.guards[i] == slot;
      assert SlotOk(s, s.guards[i]);
    }
  }
}
