/**
  Layout probing (src/art/layout.rs): scans of untrusted memory for the offsets of ART's fields.
  Every scan is a loop with early exits, proved to find what a search stated over all offsets finds.
*/
module ArtLayout {
  import opened ArtMemory
  import opened Wrappers

  const METHOD_LAYOUT_SCAN_LIMIT: nat := 64
  const CLASS_LAYOUT_SCAN_LIMIT: nat := 0x100
  const ART_METHOD_MIN_SIZE: nat := 16
  const ART_METHOD_MAX_SIZE: nat := 256
  const ART_METHOD_ARRAY_MAX_PROBE: nat := 100
  const PUBLIC_STATIC_NATIVE: nat := 0x0109
  const PUBLIC_STATIC_FINAL_NATIVE: nat := 0x0119
  const JAVA_FLAGS: nat := 0x1_0000  // the flags under the mask 0xffff

  // ---------------------------------------------------------------------------
  // Searching offsets

  /** A question asked of the memory at an offset from some base. */
  datatype Probe =
    | AccessFlags
    | NativeEntry(module_: ModuleRange)
    | ExecutableEntry
    | Holds(value: Word)
    | Trampolines(predicates: Predicates)

  type EntrypointPredicate = (Word, Word) -> bool

  /** ART's own quick-entrypoint predicates, called with the class linker and a code pointer. */
  datatype Predicates = Predicates(
    isQuickResolutionStub: EntrypointPredicate,
    isQuickToInterpreterBridge: EntrypointPredicate,
    isQuickGenericJniStub: EntrypointPredicate)

  predicate IsPublicStaticNative(flags: U32) {
    flags % JAVA_FLAGS == PUBLIC_STATIC_FINAL_NATIVE || flags % JAVA_FLAGS == PUBLIC_STATIC_NATIVE
  }

  predicate Hit(m: Memory, base: Word, probe: Probe, o: nat) {
    match probe
    case AccessFlags =>
      var flags := m.ReadU32(Offset(base, o));
      flags.Some? && IsPublicStaticNative(flags.value)
    case NativeEntry(module_) =>
      var address := m.ReadUsize(Offset(base, o));
      address.Some? && module_.Contains(address.value)
    case ExecutableEntry =>
      var address := m.ReadUsize(Offset(base, o));
      address.Some? && m.ContainsExecutable(address.value, 1)
    case Holds(value) => m.ReadUsize(Offset(base, o)) == Some(value)
    case Trampolines(predicates) =>
      var resolution := m.ReadUsize(Offset(base, o));
      var imtConflict := m.ReadUsize(Offset(base, o + POINTER_SIZE));
      var genericJni := m.ReadUsize(Offset(base, o + 2 * POINTER_SIZE));
      var toInterpreter := m.ReadUsize(Offset(base, o + 3 * POINTER_SIZE));
      && resolution.Some? && imtConflict.Some? && genericJni.Some? && toInterpreter.Some?
      && predicates.isQuickResolutionStub(Normalize(base), resolution.value)
      && predicates.isQuickGenericJniStub(Normalize(base), genericJni.value)
      && predicates.isQuickToInterpreterBridge(Normalize(base), toInterpreter.value)
  }

  /** The first of `0, ..., n - 1` that hits. */
  function First(hits: nat -> bool, n: nat): Option<nat>
    decreases n
  {
    if n == 0 then None
    else if First(hits, n - 1).Some? then First(hits, n - 1)
    else if hits(n - 1) then Some(n - 1)
    else None
  }

  /** What that means. */
  lemma {:induction false} FirstIsLowest(hits: nat -> bool, n: nat)
    ensures First(hits, n).None? ==> forall k: nat :: k < n ==> !hits(k)
    ensures First(hits, n).Some? ==> First(hits, n).value < n && hits(First(hits, n).value)
                                     && forall k: nat :: k < First(hits, n).value ==> !hits(k)
    decreases n
  {
    if n != 0 {
      FirstIsLowest(hits, n - 1);
    }
  }

  lemma FirstOfNone(hits: nat -> bool)
    ensures First(hits, 0).None?
  {}

  /** One step of a scan. */
  lemma FirstNext(hits: nat -> bool, k: nat)
    requires First(hits, k).None?
    ensures First(hits, k + 1) == if hits(k) then Some(k) else None
  {}

  /** A hit found early is the first of any longer scan. */
  lemma {:induction false} FirstExtends(hits: nat -> bool, n: nat, more: nat)
    requires n <= more && First(hits, n).Some?
    ensures First(hits, more) == First(hits, n)
    decreases more
  {
    if n < more {
      FirstExtends(hits, n, more - 1);
    }
  }

  /** The probe asked at `from`, `from + step`, ... */
  function Slots(m: Memory, base: Word, probe: Probe, from: nat, step: nat): nat -> bool {
    (k: nat) => Hit(m, base, probe, from + step * k)
  }

  // ---------------------------------------------------------------------------
  // ArtMethod replacement layout

  datatype MethodLayout = MethodLayout(
    methodSize: nat, accessFlagsOffset: nat, jniCodeOffset: nat, quickCodeOffset: nat,
    interpreterCodeOffset: Option<nat>)

  datatype ReplacementReason =
    | NoReadableCandidate | EntrypointNotExecutable | EntrypointOutsideRuntime | FlagsNotFound | DerivedNotReadable

  /** What a replacement-layout probe is asked. */
  datatype Query = Query(m: Memory, runtime: ModuleRange, apiLevel: int, fallback: bool)
  {
    predicate Readable(method_: Word) {
      method_ != 0 && m.Contains(method_, METHOD_LAYOUT_SCAN_LIMIT)
    }

    /** How many offsets are tried, in steps of four bytes. */
    function ScanWords(): nat {
      METHOD_LAYOUT_SCAN_LIMIT / 4
    }

    // Three independent searches over the candidate's first words, by word number.

    function Words(method_: Word, probe: Probe): nat -> bool {
      Slots(m, method_, probe, 0, 4)
    }

    function FirstFlags(method_: Word, n: nat): Option<nat> {
      First(Words(method_, AccessFlags), n)
    }

    function FirstNative(method_: Word, n: nat): Option<nat> {
      First(Words(method_, NativeEntry(runtime)), n)
    }

    function FirstExecutable(method_: Word, n: nat): Option<nat> {
      if fallback then First(Words(method_, ExecutableEntry), n) else None
    }

    function JniCode(method_: Word): Option<nat> {
      if FirstNative(method_, ScanWords()).Some? then FirstNative(method_, ScanWords())
      else FirstExecutable(method_, ScanWords())
    }

    predicate Fits(method_: Word, layout: MethodLayout) {
      ART_METHOD_MIN_SIZE <= layout.methodSize <= ART_METHOD_MAX_SIZE && m.Contains(method_, layout.methodSize)
    }

    /** What one candidate method yields. */
    function Yields(method_: Word): Option<MethodLayout> {
      if !Readable(method_) then None else
      var jni, flags := JniCode(method_), FirstFlags(method_, ScanWords());
      if jni.Some? && flags.Some? && Fits(method_, LayoutFrom(apiLevel, 4 * jni.value, 4 * flags.value))
      then Some(LayoutFrom(apiLevel, 4 * jni.value, 4 * flags.value)) else None
    }

    /** What is known to have been seen after one more candidate. */
    function Shows(e: Evidence, method_: Word): Evidence {
      if !Readable(method_) then e else
      var native := FirstNative(method_, ScanWords()).Some?;
      Evidence(true, e.native || native, e.executable || native || FirstExecutable(method_, ScanWords()).Some?,
               e.flags || FirstFlags(method_, ScanWords()).Some?)
    }

    function Gathered(candidates: seq<Word>): Evidence
      decreases |candidates|
    {
      if candidates == [] then Evidence(false, false, false, false)
      else Shows(Gathered(candidates[..|candidates| - 1]), candidates[|candidates| - 1])
    }
  }

  function LayoutFrom(apiLevel: int, jniCode: nat, accessFlags: nat): MethodLayout {
    var quickCode := jniCode + (if apiLevel <= 21 then 8 else POINTER_SIZE);
    MethodLayout(quickCode + (if apiLevel <= 21 then 32 else POINTER_SIZE), accessFlags, jniCode, quickCode, None)
  }

  /** What has been seen over the candidates so far. */
  datatype Evidence = Evidence(readable: bool, native: bool, executable: bool, flags: bool)

  function UnsupportedReason(e: Evidence, fallback: bool): ReplacementReason {
    if !e.readable then NoReadableCandidate
    else if !e.executable then EntrypointNotExecutable
    else if !e.native && !fallback then EntrypointOutsideRuntime
    else if !e.flags then FlagsNotFound
    else DerivedNotReadable
  }

  /** The single interleaved pass over one candidate's words, with its early break, is three searches. */
  method ScanWords(flagsAt: nat -> bool, nativeAt: nat -> bool, executableAt: nat -> bool,
                   fallback: bool, limit: nat, before: Evidence)
    returns (jniCode: Option<nat>, accessFlags: Option<nat>, evidence: Evidence)
    ensures accessFlags == First(flagsAt, limit)
    ensures var native := First(nativeAt, limit);
            var executable := if fallback then First(executableAt, limit) else None;
            && jniCode == (if native.Some? then native else executable)
            && evidence == Evidence(true, before.native || native.Some?,
                                    before.executable || native.Some? || executable.Some?,
                                    before.flags || accessFlags.Some?)
  {
    var native: Option<nat> := None;
    var executable: Option<nat> := None;
    accessFlags := None;
    evidence := before.(readable := true);
    var word: nat := 0;
    while word < limit
      invariant word <= limit
      invariant native.Some? && accessFlags.Some? ==> word == limit
      invariant accessFlags == First(flagsAt, word)
      invariant native == First(nativeAt, word)
      invariant native == None ==> executable == if fallback then First(executableAt, word) else None
      invariant executable.Some? ==> fallback && First(executableAt, word).Some?
      invariant evidence == Evidence(true, before.native || native.Some?,
                                     before.executable || native.Some? || executable.Some?,
                                     before.flags || accessFlags.Some?)
    {
      if native.None? {
        if nativeAt(word) {
          native := Some(word);
          evidence := evidence.(native := true, executable := true);
        } else if executable.None? && fallback && executableAt(word) {
          executable := Some(word);
          evidence := evidence.(executable := true);
        }
      }
      if accessFlags.None? && flagsAt(word) {
        accessFlags := Some(word);
        evidence := evidence.(flags := true);
      }
      word := word + 1;
      if native.Some? && accessFlags.Some? {
        FirstExtends(flagsAt, word, limit);
        FirstExtends(nativeAt, word, limit);
        if executable.Some? {
          FirstExtends(executableAt, word, limit);
        }
        break;
      }
    }
    jniCode := if native.Some? then native else executable;
  }

  method TryCandidate(q: Query, method_: Word, before: Evidence)
    returns (layout: Option<MethodLayout>, evidence: Evidence)
    ensures layout == q.Yields(method_) && evidence == q.Shows(before, method_)
  {
    if !q.Readable(method_) {
      return None, before;
    }
    var jniCode, accessFlags;
    jniCode, accessFlags, evidence := ScanWords(
      q.Words(method_, AccessFlags), q.Words(method_, NativeEntry(q.runtime)), q.Words(method_, ExecutableEntry),
      q.fallback, q.ScanWords(), before);
    if jniCode.None? || accessFlags.None? {
      return None, evidence;
    }
    var derived := LayoutFrom(q.apiLevel, 4 * jniCode.value, 4 * accessFlags.value);
    layout := if q.Fits(method_, derived) then Some(derived) else None;
  }

  /** The layout comes from the first candidate that yields one; otherwise the reason is that of the evidence. */
  method DetectReplacementLayout(q: Query, candidates: seq<Word>) returns (r: Result<MethodLayout, ReplacementReason>)
    ensures var outcomes := Outcomes(q, candidates);
            if r.Ok? then exists k :: 0 <= k < |outcomes| && outcomes[k] == Some(r.value) && AllNone(outcomes[..k])
            else AllNone(outcomes) && r.error == UnsupportedReason(q.Gathered(candidates), q.fallback)
  {
    ghost var outcomes := Outcomes(q, candidates);
    var evidence := Evidence(false, false, false, false);
    var k := 0;
    while k < |candidates|
      invariant 0 <= k <= |candidates|
      invariant AllNone(outcomes[..k])
      invariant evidence == q.Gathered(candidates[..k])
    {
      GatheredSnoc(q, candidates, k);
      var layout;
      layout, evidence := TryCandidate(q, candidates[k], evidence);
      assert layout == outcomes[k];
      if layout.Some? {
        return Ok(layout.value);
      }
      assert outcomes[..k + 1] == outcomes[..k] + [outcomes[k]];
      k := k + 1;
    }
    assert candidates[..|candidates|] == candidates && outcomes[..|outcomes|] == outcomes;
    return Err(UnsupportedReason(evidence, q.fallback));
  }

  /** What each candidate would yield on its own. */
  function Outcomes(q: Query, candidates: seq<Word>): seq<Option<MethodLayout>> {
    seq(|candidates|, k requires 0 <= k < |candidates| => q.Yields(candidates[k]))
  }

  predicate AllNone(outcomes: seq<Option<MethodLayout>>) {
    forall k :: 0 <= k < |outcomes| ==> outcomes[k] == None
  }

  lemma GatheredSnoc(q: Query, candidates: seq<Word>, k: nat)
    requires k < |candidates|
    ensures q.Gathered(candidates[..k + 1]) == q.Shows(q.Gathered(candidates[..k]), candidates[k])
  {
    assert candidates[..k + 1][..k] == candidates[..k];
  }

  /** A yielded layout is derived from the words found. */
  lemma YieldedFrom(q: Query, method_: Word) returns (jniCode: nat, accessFlags: nat)
    requires q.Yields(method_).Some?
    ensures q.Yields(method_) == Some(LayoutFrom(q.apiLevel, 4 * jniCode, 4 * accessFlags))
    ensures q.JniCode(method_) == Some(jniCode) && q.FirstFlags(method_, q.ScanWords()) == Some(accessFlags)
  {
    hide First, Hit;
    jniCode, accessFlags := q.JniCode(method_).value, q.FirstFlags(method_, q.ScanWords()).value;
  }

  /** Every field of a yielded layout can be read from the method it was derived from. */
  lemma YieldedLayoutReads(q: Query, method_: Word)
    ensures q.Yields(method_).Some? ==>
              var layout := q.Yields(method_).value;
              && q.m.ReadUsize(Offset(method_, layout.jniCodeOffset)).Some?
              && q.m.ReadUsize(Offset(method_, layout.quickCodeOffset)).Some?
              && q.m.ReadU32(Offset(method_, layout.accessFlagsOffset)).Some?
              && layout.accessFlagsOffset < METHOD_LAYOUT_SCAN_LIMIT
  {
    if q.Yields(method_).Some? {
      var layout := q.Yields(method_).value;
      BlockFieldsRead(q.m, method_, layout.methodSize, layout.jniCodeOffset);
      BlockFieldsRead(q.m, method_, layout.methodSize, layout.quickCodeOffset);
      FirstIsLowest(q.Words(method_, AccessFlags), q.ScanWords());
    }
  }

  /** The reason that blames an entry point outside the runtime module can never be reported. */
  lemma {:induction false} OutsideRuntimeNeverReported(q: Query, candidates: seq<Word>)
    ensures !q.fallback ==> (q.Gathered(candidates).executable <==> q.Gathered(candidates).native)
    ensures UnsupportedReason(q.Gathered(candidates), q.fallback) != EntrypointOutsideRuntime
    decreases |candidates|
  {
    if candidates != [] {
      OutsideRuntimeNeverReported(q, candidates[..|candidates| - 1]);
    }
  }

  // ---------------------------------------------------------------------------
  // Entry points as two adjacent executable words

  datatype Entrypoints = Entrypoints(
    methodSize: nat, jniCodeOffset: nat, quickCodeOffset: nat, interpreterCodeOffset: Option<nat>)

  predicate ExecutableWord(m: Memory, method_: Word, k: nat) {
    Hit(m, method_, ExecutableEntry, POINTER_SIZE * k)
  }

  predicate AdjacentPair(m: Memory, method_: Word, k: nat) {
    1 <= k && ExecutableWord(m, method_, k - 1) && ExecutableWord(m, method_, k)
  }

  predicate UnreadableWord(m: Memory, method_: Word, k: nat) {
    m.ReadUsize(Offset(method_, POINTER_SIZE * k)).None?
  }

  lemma ReadExecutable(m: Memory, method_: Word, k: nat)
    ensures ExecutableWord(m, method_, k) <==>
            && !UnreadableWord(m, method_, k)
            && m.ContainsExecutable(m.ReadUsize(Offset(method_, POINTER_SIZE * k)).value, 1)
  {}

  /**
    The scan of `detect_art_method_entrypoints`: the first adjacent pair, unless an unreadable word comes
    before it.
  */
  method DetectEntrypoints(m: Memory, method_: Word) returns (r: Option<Entrypoints>)
    ensures r.Some? ==> exists k: nat :: k < 8 && AdjacentPair(m, method_, k)
                          && r.value ==
                             Entrypoints(POINTER_SIZE * (k + 1), POINTER_SIZE * (k - 1), POINTER_SIZE * k, None)
                          && (forall j: nat :: j < k ==> !AdjacentPair(m, method_, j))
                          && forall j: nat :: j <= k ==> !UnreadableWord(m, method_, j)
    ensures r.None? ==> forall k: nat :: k < 8 && AdjacentPair(m, method_, k) ==>
                          exists j: nat :: j < k && UnreadableWord(m, method_, j)
  {
    hide Hit;
    var previous: Option<nat> := None;
    ghost var p: nat := 0;
    var k: nat := 0;
    while k < 8
      invariant k <= 8
      invariant forall j: nat :: j < k ==> !UnreadableWord(m, method_, j)
      invariant forall j: nat :: j < k ==> !AdjacentPair(m, method_, j)
      invariant previous.Some? ==> p < k && previous.value == POINTER_SIZE * p && ExecutableWord(m, method_, p)
      invariant forall j: nat :: j < k && ExecutableWord(m, method_, j) ==> previous.Some? && j <= p
    {
      var offset := POINTER_SIZE * k;
      var value := m.ReadUsize(Offset(method_, offset));
      ReadExecutable(m, method_, k);
      if value.None? {
        assert UnreadableWord(m, method_, k);
        return None;
      }
      if m.ContainsExecutable(value.value, 1) {
        if previous.Some? && offset == previous.value + POINTER_SIZE {
          var size := offset + POINTER_SIZE;
          if ART_METHOD_MIN_SIZE <= size <= ART_METHOD_MAX_SIZE {
            // An executable word before this pair would have ended the scan there.
            assert 2 <= k ==> !AdjacentPair(m, method_, k - 1);
            var interpreter := InterpreterCode(m, method_, previous.value);
            assert AdjacentPair(m, method_, k);
            return Some(Entrypoints(size, previous.value, offset, interpreter));
          }
        }
        previous, p := Some(offset), k;
      }
      k := k + 1;
    }
    return None;
  }

  function InterpreterCode(m: Memory, method_: Word, jniCode: nat): (r: Option<nat>)
    ensures r.Some? <==> POINTER_SIZE <= jniCode && Hit(m, method_, ExecutableEntry, jniCode - POINTER_SIZE)
  {
    if jniCode < POINTER_SIZE then None else
    var pointer := m.ReadUsize(Offset(method_, jniCode - POINTER_SIZE));
    if pointer.Some? && m.ContainsExecutable(pointer.value, 1) then Some(jniCode - POINTER_SIZE) else None
  }
}
