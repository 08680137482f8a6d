/**
  Installing, reverting and dropping a method replacement (src/art/replacement.rs,
  src/art/replacement/guard.rs, the registry of src/art/replacement/controller.rs).

  The functions say what each operation does to the process state; the classes perform it step by step,
  in the source's order, and are proved to do exactly that.
*/
module MethodReplacement {
  import opened Wrappers
  import opened MethodKinds
  import opened ArtMethodImage

  datatype Record = Record(replacement: Pointer, thunk: Pointer)

  /**
    The process state a replacement touches: ART's methods, the registry with its reverse map, and the
    mapped memory of clones and dispatch thunks.
  */
  datatype World = World(
    images: map<Pointer, Image>, methods: map<Pointer, Record>, replacements: map<Pointer, Pointer>,
    clones: map<Pointer, Image>, thunks: set<Pointer>)

  datatype Request = Request(
    candidates: seq<Pointer>, kind: MethodKind, replacement: Pointer, layout: Layout,
    jniTrampoline: Pointer, apiLevel: int)

  /**
    The environment's answers during one install: whether everything before the candidate loop succeeded,
    which candidates the memory map covers, the two allocations, the suspension of all threads, whether
    the thunk's end overflows, and the read that verifies the patch.
  */
  datatype Answers = Answers(
    ready: bool, readable: set<Pointer>, clone: Option<Pointer>, thunk: Option<Pointer>,
    suspended: bool, thunkEndOverflows: bool, readBack: ReadBack)

  datatype ReplaceError =
    | NullFunction | NotReady | NoReadableCandidate
    | NoMatchingCandidate(kind: MethodKind) | WrongKind(kind: MethodKind)
    | CloneFailed | ThunkFailed | NotSuspended | NullMapping | ThunkRangeOverflow | TargetActive | ReplacementRegistered
    | PatchFailed | RestoreFailed

  datatype GuardState = GuardState(
    target: Pointer, layout: Layout, original: Snapshot, clone: Pointer, thunk: Pointer, leaked: bool, reverted: bool)

  /** A registered method is mapped, its clone is mapped, and the reverse map leads back to it. */
  predicate RecordLinked(w: World, m: Pointer) {
    m in w.methods ==>
      && m in w.images && |w.images[m]| > 0
      && w.methods[m].replacement in w.clones && |w.clones[w.methods[m].replacement]| > 0
      && w.methods[m].replacement in w.replacements && w.replacements[w.methods[m].replacement] == m
  }

  predicate ReverseLinked(w: World, r: Pointer) {
    r in w.replacements ==>
      w.replacements[r] in w.methods && w.methods[w.replacements[r]].replacement == r
  }

  ghost predicate Linked(w: World) {
    && (forall m :: RecordLinked(w, m))
    && (forall r :: ReverseLinked(w, r))
  }

  /** What mmap promises: a new mapping is not memory already in use. */
  ghost predicate Fresh(w: World, a: Answers) {
    && (a.clone.Some? ==> a.clone.value !in w.clones && a.clone.value !in w.thunks && a.clone.value !in w.images)
    && (a.thunk.Some? ==> a.thunk.value !in w.clones && a.thunk.value !in w.thunks && a.thunk.value !in w.images)
    && (a.clone.Some? && a.thunk.Some? ==> a.clone.value != a.thunk.value)
  }

  // ---------------------------------------------------------------------------
  // The registry

  function RegisterError(methods: map<Pointer, Record>, replacements: map<Pointer, Pointer>,
                         target: Pointer, record: Record, overflows: bool): Option<ReplaceError>
  {
    if target == NULL || record.replacement == NULL || record.thunk == NULL then Some(NullMapping)
    else if overflows then Some(ThunkRangeOverflow)
    else if target in methods then Some(TargetActive)
    else if record.replacement in replacements then Some(ReplacementRegistered)
    else None
  }

  function Unregistered(w: World, target: Pointer): World {
    if target in w.methods
    then w.(methods := w.methods - {target}, replacements := w.replacements - {w.methods[target].replacement})
    else w
  }

  class ArtReplacementController {
    var methods: map<Pointer, Record>
    var replacements: map<Pointer, Pointer>

    constructor ()
      ensures methods == map[] && replacements == map[]
    {
      methods, replacements := map[], map[];
    }

    method Register(target: Pointer, record: Record, overflows: bool) returns (error: Option<ReplaceError>)
      modifies this
      ensures error == RegisterError(old(methods), old(replacements), target, record, overflows)
      ensures error.Some? ==> methods == old(methods) && replacements == old(replacements)
      ensures error.None? ==> methods == old(methods)[target := record]
      ensures error.None? ==> replacements == old(replacements)[record.replacement := target]
    {
      if target == NULL || record.replacement == NULL || record.thunk == NULL {
        return Some(NullMapping);
      }
      if overflows {
        return Some(ThunkRangeOverflow);
      }
      if target in methods {
        return Some(TargetActive);
      }
      if record.replacement in replacements {
        return Some(ReplacementRegistered);
      }
      methods := methods[target := record];
      replacements := replacements[record.replacement := target];
      return None;
    }

    method Unregister(target: Pointer)
      modifies this
      ensures target !in methods
      ensures target !in old(methods) ==> methods == old(methods) && replacements == old(replacements)
      ensures target in old(methods) ==>
                && methods == old(methods) - {target}
                && replacements == old(replacements) - {old(methods)[target].replacement}
    {
      if target in methods {
        var replacement := methods[target].replacement;
        methods := methods - {target};
        replacements := replacements - {replacement};
      }
    }
  }

  // ---------------------------------------------------------------------------
  // Install

  function SnapshotOf(w: World, q: Request, a: Answers, m: Pointer): Option<Snapshot> {
    if m == NULL || m !in a.readable || m !in w.images then None else ReadSnapshot(w.images[m], q.layout)
  }

  /** The candidate the install acts on: readable and of the right kind. */
  predicate Matching(w: World, q: Request, a: Answers, m: Pointer) {
    SnapshotOf(w, q, a, m).Some? && KindMatches(SnapshotOf(w, q, a, m).value, q.kind)
  }

  lemma MatchingFits(w: World, q: Request, a: Answers, m: Pointer)
    requires Matching(w, q, a, m)
    ensures m in w.images && Fits(q.layout, w.images[m]) && 0 < |w.images[m]| && q.layout.size <= |w.images[m]|
  {}

  lemma PatchVerifiedKeepsLength(image: Image, l: Layout, original: Snapshot, patched: Snapshot, r: ReadBack)
    requires Fits(l, image)
    ensures |PatchVerified(image, l, original, patched, r).0| == |image|
  {}

  /** The clones once those of the given methods took their method's declaring class, word 0. */
  function SynchronizedClones(w: World, done: set<Pointer>): map<Pointer, Image>
    requires Linked(w)
  {
    map c | c in w.clones ::
      assert ReverseLinked(w, c);
      assert c in w.replacements ==> RecordLinked(w, w.replacements[c]);
      if c in w.replacements && w.replacements[c] in done
      then w.clones[c][0 := w.images[w.replacements[c]][0]] else w.clones[c]
  }

  /** synchronize_replacement_methods, over every registered method. */
  function Synchronized(w: World): World
    requires Linked(w)
  {
    w.(clones := SynchronizedClones(w, w.methods.Keys))
  }

  lemma SynchronizedNone(w: World)
    requires Linked(w)
    ensures SynchronizedClones(w, {}) == w.clones
  {}

  lemma SynchronizedAll(w: World, done: set<Pointer>, todo: set<Pointer>)
    requires Linked(w) && done + todo == w.methods.Keys && todo == {}
    ensures w.(clones := SynchronizedClones(w, done)) == Synchronized(w)
  {
    assert done == w.methods.Keys;
  }

  lemma SynchronizedOneMore(w: World, done: set<Pointer>, m: Pointer)
    requires Linked(w) && m in w.methods && m !in done
    ensures var c := w.methods[m].replacement;
            var clones := SynchronizedClones(w, done);
            c in clones && |clones[c]| > 0 && m in w.images && |w.images[m]| > 0
            && SynchronizedClones(w, done + {m}) == clones[c := clones[c][0 := w.images[m][0]]]
  {
    assert RecordLinked(w, m);
    forall c | c in w.clones && c in w.replacements && w.replacements[c] == m
      ensures c == w.methods[m].replacement
    {
      assert ReverseLinked(w, c);
    }
  }

  /** The clone's bytes, or None when the copy does not read back as the original or cannot be patched. */
  function ClonedImage(image: Image, q: Request, original: Snapshot): (r: Option<Image>)
    requires q.layout.size <= |image|
    ensures r.Some? ==> |r.value| == q.layout.size
  {
    var copied := image[..q.layout.size];
    if ReadSnapshot(copied, q.layout) != Some(original) then None
    else
      var patched := PatchVerified(
        copied, q.layout, original,
        PatchedReplacement(original, q.replacement, q.jniTrampoline, CompileDontBother(q.apiLevel)), Faithful);
      if patched.1 then Some(patched.0) else None
  }

  /** Why ArtMethodDispatchThunk::new refuses a layout. */
  predicate ThunkEncodable(l: Layout) {
    l.quickCode % 2 == 0 && l.quickCode / 2 <= 0x0fff
  }

  /** Whether the clone and the thunk can be made and all threads suspended. */
  function Prepared(w: World, q: Request, a: Answers, m: Pointer, original: Snapshot): Option<ReplaceError>
    requires m in w.images && q.layout.size <= |w.images[m]|
  {
    if q.layout.size == 0 || a.clone.None? || a.clone.value == NULL then Some(CloneFailed)
    else if ClonedImage(w.images[m], q, original).None? then Some(CloneFailed)
    else if !ThunkEncodable(q.layout) || a.thunk.None? || a.thunk.value == NULL then Some(ThunkFailed)
    else if !a.suspended then Some(NotSuspended)
    else None
  }

  /** The state once the patch is in place. */
  function Installed(w: World, m: Pointer, written: Image, record: Record, clone: Image): World {
    World(w.images[m := written], w.methods[m := record], w.replacements[record.replacement := m],
          w.clones[record.replacement := clone], w.thunks + {record.thunk})
  }

  lemma InstalledStaysLinked(w: World, m: Pointer, written: Image, record: Record, clone: Image)
    requires Linked(w)
    requires m in w.images && |written| == |w.images[m]| > 0 && |clone| > 0
    requires m !in w.methods && record.replacement !in w.clones
    ensures Linked(Installed(w, m, written, record, clone))
  {
    var r := Installed(w, m, written, record, clone);
    assert forall k :: RecordLinked(w, k) ==> RecordLinked(r, k);
    forall c
      ensures ReverseLinked(r, c)
    {
      assert ReverseLinked(w, c) && (c in w.replacements ==> RecordLinked(w, w.replacements[c]));
    }
  }

  /** Everything after a candidate was chosen. A failure leaves the state it found, except for the patched image. */
  function InstallOnStep(w: World, q: Request, a: Answers, m: Pointer): (World, Result<GuardState, ReplaceError>)
    requires Linked(w) && Fresh(w, a) && Matching(w, q, a, m)
  {
    var original := SnapshotOf(w, q, a, m).value;
    var unprepared := Prepared(w, q, a, m, original);
    if unprepared.Some? then (w, Err(unprepared.value))
    else
      var record := Record(a.clone.value, a.thunk.value);
      var refused := RegisterError(w.methods, w.replacements, m, record, a.thunkEndOverflows);
      if refused.Some? then (w, Err(refused.value))
      else
        var (written, ok) := PatchVerified(
          w.images[m], q.layout, original,
          PatchedOriginal(original, record.thunk, CompileDontBother(q.apiLevel)), a.readBack);
        if !ok then (w.(images := w.images[m := written]), Err(PatchFailed))
        else
          var clone := ClonedImage(w.images[m], q, original).value;
          InstalledStaysLinked(w, m, written, record, clone);
          (Synchronized(Installed(w, m, written, record, clone)),
           Ok(GuardState(m, q.layout, original, record.replacement, record.thunk, false, false)))
  }

  lemma UnpreparedChangesNothing(w: World, q: Request, a: Answers, m: Pointer, original: Snapshot)
    requires Linked(w) && Fresh(w, a) && Matching(w, q, a, m) && SnapshotOf(w, q, a, m) == Some(original)
    requires m in w.images && q.layout.size <= |w.images[m]| && Prepared(w, q, a, m, original).Some?
    ensures InstallOnStep(w, q, a, m) == (w, Err(Prepared(w, q, a, m, original).value))
  {}

  /** The position of the candidate acted on, or the number of candidates. */
  function Chosen(w: World, q: Request, a: Answers, from: nat): (k: nat)
    requires from <= |q.candidates|
    ensures from <= k <= |q.candidates|
    ensures k < |q.candidates| ==> Matching(w, q, a, q.candidates[k])
    ensures forall j :: from <= j < k ==> !Matching(w, q, a, q.candidates[j])
    decreases |q.candidates| - from
  {
    if from == |q.candidates| || Matching(w, q, a, q.candidates[from]) then from else Chosen(w, q, a, from + 1)
  }

  predicate SawReadable(w: World, q: Request, a: Answers) {
    exists k :: 0 <= k < |q.candidates| && SnapshotOf(w, q, a, q.candidates[k]).Some?
  }

  function InstallStep(w: World, q: Request, a: Answers): (World, Result<GuardState, ReplaceError>)
    requires Linked(w) && Fresh(w, a)
  {
    if q.replacement == NULL then (w, Err(NullFunction))
    else if !a.ready then (w, Err(NotReady))
    else
      var k := Chosen(w, q, a, 0);
      if k < |q.candidates| then InstallOnStep(w, q, a, q.candidates[k])
      else if SawReadable(w, q, a) then (w, Err(WrongKind(q.kind)))
      else (w, Err(NoReadableCandidate))
  }

  // ---------------------------------------------------------------------------
  // Revert and drop

  /** The environment's answers during one restore. */
  datatype RestoreAnswers = RestoreAnswers(ready: bool, readBack: ReadBack)

  ghost predicate Restorable(w: World, g: GuardState) {
    g.target in w.images && Fits(g.layout, w.images[g.target])
  }

  function RestoreStep(w: World, g: GuardState, a: RestoreAnswers): (World, bool)
    requires Restorable(w, g)
  {
    if !a.ready then (w, false)
    else
      var image := Patch(w.images[g.target], g.layout, g.original);
      (w.(images := w.images[g.target := image]), Observe(image, g.layout, a.readBack) == Some(g.original))
  }

  function RevertStep(w: World, g: GuardState, a: RestoreAnswers): (World, GuardState, bool)
    requires Restorable(w, g)
  {
    if g.reverted then (w, g, true)
    else
      var (restored, ok) := RestoreStep(w, g, a);
      if ok then (Unregistered(restored, g.target), g.(reverted := true), true) else (restored, g, false)
  }

  /** Dropping the guard's two memory owners unmaps what they still own. */
  function Released(w: World, g: GuardState): World {
    if g.leaked then w else w.(clones := w.clones - {g.clone}, thunks := w.thunks - {g.thunk})
  }

  function DropStep(w: World, g: GuardState, a: RestoreAnswers): (World, GuardState)
    requires Restorable(w, g)
  {
    var (world, guard, ok) := RevertStep(w, g, a);
    var last := if ok then guard else guard.(leaked := true, reverted := true);
    (Released(world, last), last)
  }

  lemma RemoveAdded<T>(s: set<T>, x: T)
    requires x !in s
    ensures s + {x} - {x} == s
  {}

  lemma RemoveInserted<K, V>(m: map<K, V>, k: K, v: V)
    requires k !in m
    ensures m[k := v] - {k} == m
  {}

  // ---------------------------------------------------------------------------
  // The same, step by step

  class ArtBackend {
    const controller: ArtReplacementController
    var images: map<Pointer, Image>
    var clones: map<Pointer, Image>
    var thunks: set<Pointer>

    constructor (images: map<Pointer, Image>)
      ensures fresh(controller)
      ensures View() == World(images, map[], map[], map[], {})
    {
      controller := new ArtReplacementController();
      this.images, clones, thunks := images, map[], {};
    }

    ghost function View(): World
      reads this, controller
    {
      World(images, controller.methods, controller.replacements, clones, thunks)
    }

    /** clone_replacement_art_method: copy, compare with the snapshot, patch; a failed clone is unmapped. */
    method CloneMethod(q: Request, target: Pointer, original: Snapshot, clone: Option<Pointer>)
      returns (address: Option<Pointer>)
      requires target in images && q.layout.size <= |images[target]|
      requires clone.Some? ==> clone.value !in clones
      modifies this`clones
      ensures address.Some? <==>
              && q.layout.size > 0 && clone.Some? && clone.value != NULL
              && ClonedImage(images[target], q, original).Some?
      ensures address.Some? ==> address == clone
      ensures clones == if address.Some? then old(clones)[clone.value := ClonedImage(images[target], q, original).value]
                        else old(clones)
    {
      if q.layout.size == 0 || clone.None? || clone.value == NULL {
        return None;
      }
      var c := clone.value;
      clones := clones[c := images[target][..q.layout.size]];
      if ReadSnapshot(clones[c], q.layout) != Some(original) {
        clones := clones - {c};
        return None;
      }
      var (written, ok) := PatchVerified(
        clones[c], q.layout, original,
        PatchedReplacement(original, q.replacement, q.jniTrampoline, CompileDontBother(q.apiLevel)), Faithful);
      clones := clones[c := written];
      if !ok {
        clones := clones - {c};
        return None;
      }
      return clone;
    }

    method SynchronizeReplacementMethods()
      requires Linked(View())
      modifies this`clones
      ensures View() == Synchronized(old(View()))
    {
      hide SynchronizedClones, Synchronized, Linked;
      SynchronizedNone(View());
      var todo := controller.methods.Keys;
      ghost var before := View();
      ghost var done: set<Pointer> := {};
      while todo != {}
        invariant done + todo == controller.methods.Keys && done !! todo
        invariant clones == SynchronizedClones(before, done)
        decreases |todo|
      {
        var m :| m in todo;
        SynchronizedOneMore(before, done, m);
        var clone := controller.methods[m].replacement;
        clones := clones[clone := clones[clone][0 := images[m][0]]];
        todo := todo - {m};
        done := done + {m};
      }
      SynchronizedAll(before, done, todo);
    }

    /** Register, then patch with verification; a failed patch is taken back out of the registry. */
    method RegisterAndPatch(q: Request, a: Answers, target: Pointer, original: Snapshot, record: Record)
      returns (error: Option<ReplaceError>)
      requires target in images && Fits(q.layout, images[target])
      modifies this`images, controller
      ensures var refused := RegisterError(
                old(controller.methods), old(controller.replacements), target, record, a.thunkEndOverflows);
              var patched := PatchVerified(
                old(images)[target], q.layout, original,
                PatchedOriginal(original, record.thunk, CompileDontBother(q.apiLevel)), a.readBack);
              && error == (if refused.Some? then refused else if patched.1 then None else Some(PatchFailed))
              && images == (if refused.Some? then old(images) else old(images)[target := patched.0])
      ensures error.Some? ==>
                controller.methods == old(controller.methods) && controller.replacements == old(controller.replacements)
      ensures error.None? ==> controller.methods == old(controller.methods)[target := record]
      ensures error.None? ==> controller.replacements == old(controller.replacements)[record.replacement := target]
    {
      hide PatchVerified, PatchedOriginal;
      error := controller.Register(target, record, a.thunkEndOverflows);
      if error.Some? {
        return;
      }
      var (written, ok) := PatchVerified(
        images[target], q.layout, original,
        PatchedOriginal(original, record.thunk, CompileDontBother(q.apiLevel)), a.readBack);
      images := images[target := written];
      if !ok {
        controller.Unregister(target);
        return Some(PatchFailed);
      }
    }

    /** With the clone and the thunk mapped: register, patch, synchronize; on failure both are unmapped again. */
    method Commit(q: Request, a: Answers, target: Pointer, original: Snapshot, record: Record, ghost before: World)
      returns (r: Result<ArtMethodReplacementGuard, ReplaceError>)
      requires Linked(before) && Fresh(before, a) && Matching(before, q, a, target)
      requires SnapshotOf(before, q, a, target) == Some(original) && Prepared(before, q, a, target, original).None?
      requires record == Record(a.clone.value, a.thunk.value)
      requires View() == before.(
                 clones := before.clones[record.replacement := ClonedImage(before.images[target], q, original).value],
                 thunks := before.thunks + {record.thunk})
      modifies this, controller
      ensures View() == InstallOnStep(before, q, a, target).0
      ensures r.Ok? <==> InstallOnStep(before, q, a, target).1.Ok?
      ensures r.Ok? ==> fresh(r.value) && r.value.backend == this && r.value.Owned()
                        && r.value.State() == InstallOnStep(before, q, a, target).1.value
      ensures r.Err? ==> r.error == InstallOnStep(before, q, a, target).1.error
    {
      hide Synchronized, PatchVerified, ClonedImage, ReadSnapshot, PatchedOriginal, Linked, KindMatches;
      hide ThunkEncodable, Fits;
      MatchingFits(before, q, a, target);
      PatchVerifiedKeepsLength(
        before.images[target], q.layout, original,
        PatchedOriginal(original, record.thunk, CompileDontBother(q.apiLevel)), a.readBack);
      var error := RegisterAndPatch(q, a, target, original, record);
      if error.Some? {
        thunks, clones := thunks - {record.thunk}, clones - {record.replacement};
        RemoveAdded(before.thunks, record.thunk);
        RemoveInserted(before.clones, record.replacement, ClonedImage(before.images[target], q, original).value);
        return Err(error.value);
      }
      ghost var image := ClonedImage(before.images[target], q, original).value;
      assert View() == Installed(before, target, images[target], record, image);
      InstalledStaysLinked(before, target, images[target], record, image);
      SynchronizeReplacementMethods();
      var guard := new ArtMethodReplacementGuard(this, target, q.layout, original, record.replacement, record.thunk);
      return Ok(guard);
    }

    /** Make the clone and the thunk and suspend all threads; on failure what was made is unmapped again. */
    method PrepareCandidate(q: Request, a: Answers, target: Pointer, original: Snapshot)
      returns (error: Option<ReplaceError>)
      requires target in images && q.layout.size <= |images[target]| && Fresh(View(), a)
      modifies this`clones, this`thunks
      ensures error == Prepared(old(View()), q, a, target, original)
      ensures error.Some? ==> View() == old(View())
      ensures error.None? ==>
                && clones == old(clones)[a.clone.value := ClonedImage(images[target], q, original).value]
                && thunks == old(thunks) + {a.thunk.value}
    {
      hide ClonedImage;
      var cloned := CloneMethod(q, target, original, a.clone);
      if cloned.None? {
        return Some(CloneFailed);
      }
      var clone := cloned.value;
      ghost var image := ClonedImage(images[target], q, original).value;
      if !ThunkEncodable(q.layout) || a.thunk.None? || a.thunk.value == NULL {
        clones := clones - {clone};
        RemoveInserted(old(clones), clone, image);
        return Some(ThunkFailed);
      }
      var thunk := a.thunk.value;
      thunks := thunks + {thunk};
      if !a.suspended {
        thunks, clones := thunks - {thunk}, clones - {clone};
        RemoveAdded(old(thunks), thunk);
        RemoveInserted(old(clones), clone, image);
        return Some(NotSuspended);
      }
      return None;
    }

    /** The body of the candidate loop once a candidate matched. */
    method ReplaceCandidate(q: Request, a: Answers, target: Pointer, original: Snapshot)
      returns (r: Result<ArtMethodReplacementGuard, ReplaceError>)
      requires Linked(View()) && Fresh(View(), a) && Matching(View(), q, a, target)
      requires SnapshotOf(View(), q, a, target) == Some(original)
      modifies this, controller
      ensures View() == InstallOnStep(old(View()), q, a, target).0
      ensures r.Ok? <==> InstallOnStep(old(View()), q, a, target).1.Ok?
      ensures r.Ok? ==> fresh(r.value) && r.value.backend == this && r.value.Owned()
                        && r.value.State() == InstallOnStep(old(View()), q, a, target).1.value
      ensures r.Err? ==> r.error == InstallOnStep(old(View()), q, a, target).1.error
    {
      ghost var before := View();
      MatchingFits(before, q, a, target);
      hide InstallOnStep, ClonedImage, Linked, Matching, SnapshotOf;
      var error := PrepareCandidate(q, a, target, original);
      if error.Some? {
        UnpreparedChangesNothing(before, q, a, target, original);
        return Err(error.value);
      }
      r := Commit(q, a, target, original, Record(a.clone.value, a.thunk.value), before);
    }

    method ReplaceMethod(q: Request, a: Answers) returns (r: Result<ArtMethodReplacementGuard, ReplaceError>)
      requires Linked(View()) && Fresh(View(), a)
      modifies this, controller
      ensures View() == InstallStep(old(View()), q, a).0
      ensures r.Ok? <==> InstallStep(old(View()), q, a).1.Ok?
      ensures r.Ok? ==> fresh(r.value) && r.value.backend == this && r.value.Owned()
                        && r.value.State() == InstallStep(old(View()), q, a).1.value
      ensures r.Err? ==> r.error == InstallStep(old(View()), q, a).1.error
    {
      hide InstallOnStep, ReadSnapshot, KindMatches, RecordLinked, ReverseLinked, Linked, Fresh;
      if q.replacement == NULL {
        return Err(NullFunction);
      }
      if !a.ready {
        return Err(NotReady);
      }
      var sawReadable, sawWrongKind := false, false;
      for k := 0 to |q.candidates|
        invariant View() == old(View())
        invariant Chosen(View(), q, a, 0) == Chosen(View(), q, a, k)
        invariant sawReadable <==> exists j :: 0 <= j < k && SnapshotOf(View(), q, a, q.candidates[j]).Some?
        invariant sawReadable == sawWrongKind
      {
        var m := q.candidates[k];
        if m != NULL && m in a.readable && m in images {
          var original := ReadSnapshot(images[m], q.layout);
          if original.Some? {
            sawReadable := true;
            if KindMatches(original.value, q.kind) {
              r := ReplaceCandidate(q, a, m, original.value);
              return;
            }
            sawWrongKind := true;
          }
        }
      }
      if sawWrongKind {
        return Err(WrongKind(q.kind));
      }
      if sawReadable {
        return Err(NoMatchingCandidate(q.kind));
      }
      return Err(NoReadableCandidate);
    }

    method RestoreMethod(g: ArtMethodReplacementGuard, a: RestoreAnswers) returns (ok: bool)
      requires Restorable(View(), g.State())
      modifies this`images
      ensures (View(), ok) == RestoreStep(old(View()), g.State(), a)
    {
      if !a.ready {
        return false;
      }
      images := images[g.target := Patch(images[g.target], g.layout, g.original)];
      return Observe(images[g.target], g.layout, a.readBack) == Some(g.original);
    }
  }

  class ArtMethodReplacementGuard {
    const backend: ArtBackend
    const target: Pointer
    const layout: Layout
    const original: Snapshot
    const clone: Pointer
    const thunk: Pointer
    var cloneOwned: bool   // false once leaked: the owner's length is 0 and its drop unmaps nothing
    var thunkOwned: bool
    var reverted: bool

    constructor (backend: ArtBackend, target: Pointer, layout: Layout, original: Snapshot,
                 clone: Pointer, thunk: Pointer)
      ensures this.backend == backend
      ensures Owned() && State() == GuardState(target, layout, original, clone, thunk, false, false)
    {
      this.backend, this.target, this.layout, this.original := backend, target, layout, original;
      this.clone, this.thunk, cloneOwned, thunkOwned, reverted := clone, thunk, true, true, false;
    }

    ghost predicate Owned()
      reads this
    {
      cloneOwned == thunkOwned
    }

    ghost function State(): GuardState
      reads this
    {
      GuardState(target, layout, original, clone, thunk, !cloneOwned, reverted)
    }

    method Revert(a: RestoreAnswers) returns (ok: bool)
      requires Owned() && Restorable(backend.View(), State())
      modifies this`reverted, backend`images, backend.controller
      ensures Owned()
      ensures (backend.View(), State(), ok) == RevertStep(old(backend.View()), old(State()), a)
    {
      if reverted {
        return true;
      }
      var restored := backend.RestoreMethod(this, a);
      if !restored {
        return false;
      }
      backend.controller.Unregister(target);
      reverted := true;
      return true;
    }

    /** Drop: revert if that was not done, keep the memory mapped if ART may still branch to it, else unmap it. */
    method Drop(a: RestoreAnswers)
      requires Owned() && Restorable(backend.View(), State())
      modifies this, backend, backend.controller
      ensures Owned()
      ensures (backend.View(), State()) == DropStep(old(backend.View()), old(State()), a)
    {
      if !reverted {
        var ok := Revert(a);
        if !ok {
          cloneOwned, thunkOwned := false, false;
          reverted := true;
        }
      }
      if cloneOwned {
        backend.clones := backend.clones - {clone};
      }
      if thunkOwned {
        backend.thunks := backend.thunks - {thunk};
      }
    }
  }
}
