/**
  Locating the fields of art::Runtime (src/art/runtime_layout.rs): a nested scan over the places the
  JavaVM pointer may sit and, for each, over the per-API guesses of where the other fields are.
*/
module RuntimeLayoutScan {
  import opened ArtLayout
  import opened ArtMemory
  import opened Trampolines
  import opened Wrappers

  const VM_START: nat := 384
  const STD_STRING_SIZE: nat := 3 * POINTER_SIZE
  const LOWEST_API: int := 26

  datatype Offsets = Offsets(
    vm: nat, heap: nat, threadList: nat, internTable: nat, classLinker: nat, jniIdManager: Option<nat>)

  function CheckedSub(a: nat, b: nat): Option<nat> {
    if b <= a then Some(a - b) else None
  }

  /** The guesses for the class linker; no subtraction here can underflow. */
  function ClassLinkerOffsets(apiLevel: int, vm: nat): seq<nat>
    requires VM_START <= vm
  {
    if apiLevel >= 33 then [vm - 4 * POINTER_SIZE]
    else if apiLevel >= 30 then [vm - 3 * POINTER_SIZE, vm - 4 * POINTER_SIZE]
    else if apiLevel >= 29 then [vm - 2 * POINTER_SIZE]
    else if apiLevel >= 27 then [vm - STD_STRING_SIZE - 3 * POINTER_SIZE]
    else [vm - STD_STRING_SIZE - 2 * POINTER_SIZE]
  }

  function HeapOffset(apiLevel: int, threadList: nat): Option<nat> {
    var slots := if apiLevel >= 34 then 9 else if apiLevel >= 24 then 8 else if apiLevel >= 23 then 7 else 4;
    CheckedSub(threadList, slots * POINTER_SIZE)
  }

  function FromClassLinker(apiLevel: int, vm: nat, classLinker: nat): Option<Offsets> {
    match CheckedSub(classLinker, POINTER_SIZE)
    case None => None
    case Some(internTable) =>
      match CheckedSub(internTable, POINTER_SIZE)
      case None => None
      case Some(threadList) =>
        match HeapOffset(apiLevel, threadList)
        case None => None
        case Some(heap) =>
          var jniIdManager := if apiLevel >= 30 then CheckedSub(vm, POINTER_SIZE) else None;
          if apiLevel >= 30 && jniIdManager.None? then None
          else Some(Offsets(vm, heap, threadList, internTable, classLinker, jniIdManager))
  }

  /** The guesses that survive the checked subtractions, in order. */
  function Candidates(apiLevel: int, vm: nat): seq<Offsets>
    requires VM_START <= vm
  {
    Collect(apiLevel, vm, ClassLinkerOffsets(apiLevel, vm))
  }

  function Collect(apiLevel: int, vm: nat, classLinkers: seq<nat>): seq<Offsets> {
    if classLinkers == [] then [] else
    var rest := Collect(apiLevel, vm, classLinkers[1..]);
    match FromClassLinker(apiLevel, vm, classLinkers[0])
    case None => rest
    case Some(offsets) => [offsets] + rest
  }

  /** From API 26 on, no guess is dropped, and each places the fields in ART's order below the class linker. */
  lemma NoGuessDropped(apiLevel: int, vm: nat)
    requires LOWEST_API <= apiLevel && VM_START <= vm
    ensures |Candidates(apiLevel, vm)| == |ClassLinkerOffsets(apiLevel, vm)|
    ensures forall k :: 0 <= k < |Candidates(apiLevel, vm)| ==>
              var o := Candidates(apiLevel, vm)[k];
              && o.classLinker == ClassLinkerOffsets(apiLevel, vm)[k]
              && o.heap < o.threadList < o.internTable < o.classLinker < o.vm == vm
              && (o.jniIdManager.Some? <==> apiLevel >= 30)
              && (o.jniIdManager.Some? ==> o.classLinker < o.jniIdManager.value < vm)
  {
    CollectAll(apiLevel, vm, ClassLinkerOffsets(apiLevel, vm));
  }

  lemma {:induction false} CollectAll(apiLevel: int, vm: nat, classLinkers: seq<nat>)
    requires forall c <- classLinkers :: FromClassLinker(apiLevel, vm, c).Some?
    ensures |Collect(apiLevel, vm, classLinkers)| == |classLinkers|
    ensures forall k :: 0 <= k < |classLinkers| ==>
              FromClassLinker(apiLevel, vm, classLinkers[k]) == Some(Collect(apiLevel, vm, classLinkers)[k])
    decreases |classLinkers|
  {
    if classLinkers != [] {
      CollectAll(apiLevel, vm, classLinkers[1..]);
    }
  }

  // ---------------------------------------------------------------------------
  // The scan

  /** What the accepting closure says of a readable layout. */
  datatype Verdict<+T> = Skip | Reject(reason: TrampolineError) | Accept(value: T) | Abort

  datatype Outcome<+T> =
    | Accepted(value: T)
    | Exhausted(foundVm: bool, failure: Option<TrampolineError>)  // with the first rejection, if any
    | ApiTooLow | NullRuntime | Aborted

  /** The scan's questions, by slot and guess number. */
  datatype Table<!T> = Table(vmAt: nat -> bool, guesses: nat -> nat, judge: (nat, nat) -> Verdict<T>)
  {
    function At(i: nat, k: nat): Verdict<T> {
      if vmAt(i) && k < guesses(i) then judge(i, k) else Skip
    }

    predicate Passed(i: nat, k: nat) {
      At(i, k).Skip? || At(i, k).Reject?
    }

    /** Every guess lexicographically before (i, k) was passed over. */
    ghost predicate AllBefore(i: nat, k: nat) {
      forall i': nat, k': nat :: i' < i || (i' == i && k' < k) ==> Passed(i', k')
    }

    ghost predicate NoneRejected(i: nat, k: nat) {
      forall i': nat, k': nat :: i' < i || (i' == i && k' < k) ==> !At(i', k').Reject?
    }

    ghost predicate RejectedFirst(i: nat, k: nat, reason: TrampolineError) {
      exists i0: nat, k0: nat :: (i0 < i || (i0 == i && k0 < k)) && At(i0, k0) == Reject(reason) && NoneRejected(i0, k0)
    }

    /** Some guess within the first n slots is the first not passed over, and it is accepted. */
    ghost predicate Accepts(n: nat) {
      exists i: nat, k: nat :: i < n && At(i, k).Accept? && AllBefore(i, k)
    }

    ghost predicate Aborts(n: nat) {
      exists i: nat, k: nat :: i < n && At(i, k) == Abort && AllBefore(i, k)
    }

    ghost predicate NothingFound(n: nat) {
      forall i: nat :: i < n ==> !vmAt(i)
    }

    ghost predicate AllSkipped(n: nat) {
      forall i: nat, k: nat :: i < n ==> At(i, k).Skip?
    }

    ghost predicate Rejects(n: nat, reason: TrampolineError) {
      AllBefore(n, 0) && RejectedFirst(n, 0, reason)
    }

    ghost predicate FirstRejection(i: nat, k: nat, failure: Option<TrampolineError>) {
      if failure.Some? then RejectedFirst(i, k, failure.value) else NoneRejected(i, k)
    }
  }

  datatype Scan<!T> = Scan(apiLevel: int, runtime: Word, vmValue: Word, m: Memory, accept: RuntimeLayout -> Verdict<T>)
  {
    function VmSlots(): nat { 100 }

    function VmOffset(i: nat): nat { VM_START + POINTER_SIZE * i }

    function ReadWord(offset: nat): Option<Word> {
      m.ReadUsize(Offset(runtime, offset))
    }

    /** The JavaVM pointer is at the i-th slot. */
    predicate VmAt(i: nat) {
      ReadWord(VmOffset(i)) == Some(vmValue)
    }

    function ReadLayout(o: Offsets): Option<RuntimeLayout> {
      var heap, threadList := ReadWord(o.heap), ReadWord(o.threadList);
      var internTable, classLinker := ReadWord(o.internTable), ReadWord(o.classLinker);
      var jniIdManager := if o.jniIdManager.Some? then ReadWord(o.jniIdManager.value) else Some(0);
      if heap.None? || threadList.None? || internTable.None? || classLinker.None? || jniIdManager.None? then None
      else Some(RuntimeLayout(runtime, heap.value, threadList.value, classLinker.value, internTable.value,
                              jniIdManager.value, None))
    }

    predicate PointersSet(l: RuntimeLayout) {
      l.heap != 0 && l.threadList != 0 && l.classLinker != 0 && l.internTable != 0
    }

    predicate PointersReadable(l: RuntimeLayout) {
      && m.Contains(l.heap, POINTER_SIZE) && m.Contains(l.threadList, POINTER_SIZE)
      && m.Contains(l.classLinker, POINTER_SIZE) && m.Contains(l.internTable, POINTER_SIZE)
      && (l.jniIdManager == 0 || m.Contains(l.jniIdManager, POINTER_SIZE))
    }

    /** What is decided about one guess. */
    function Judge(o: Offsets): Verdict<T> {
      match ReadLayout(o)
      case None => Skip
      case Some(l) => if PointersSet(l) && PointersReadable(l) then accept(l) else Skip
    }

    function Questions(): Table<T> {
      Table((i: nat) => VmAt(i), (i: nat) => |Candidates(apiLevel, VmOffset(i))|,
                  (i: nat, k: nat) => if k < |Candidates(apiLevel, VmOffset(i))|
                                      then Judge(Candidates(apiLevel, VmOffset(i))[k]) else Skip)
    }
  }

  /** Only one guess can be the first that decides. */
  lemma FirstDecides<T>(t: Table<T>, i: nat, k: nat, i': nat, k': nat)
    requires t.AllBefore(i, k) && t.AllBefore(i', k') && !t.Passed(i, k) && !t.Passed(i', k')
    ensures i == i' && k == k'
  {}

  /** The outcomes exclude one another. */
  lemma AcceptsOrAborts<T>(t: Table<T>, n: nat)
    ensures !(t.Accepts(n) && t.Aborts(n))
    ensures t.AllBefore(n, 0) ==> !t.Accepts(n) && !t.Aborts(n)
    ensures t.NothingFound(n) ==> t.AllSkipped(n)
    ensures t.AllSkipped(n) ==> t.AllBefore(n, 0)
  {
    if t.Accepts(n) && t.Aborts(n) {
      var i: nat, k: nat :| i < n && t.At(i, k).Accept? && t.AllBefore(i, k);
      var i': nat, k': nat :| i' < n && t.At(i', k') == Abort && t.AllBefore(i', k');
      FirstDecides(t, i, k, i', k');
    }
    if t.AllBefore(n, 0) {
      forall i: nat, k: nat | i < n ensures !t.At(i, k).Accept? && !t.At(i, k).Abort? {
        assert t.Passed(i, k);
      }
    }
  }

  lemma RejectsOnce<T>(t: Table<T>, n: nat, reason: TrampolineError, other: TrampolineError)
    requires t.Rejects(n, reason)
    ensures !t.AllSkipped(n)
    ensures t.Rejects(n, other) ==> reason == other
  {
    var i: nat, k: nat :| i < n && t.At(i, k) == Reject(reason) && t.NoneRejected(i, k);
    if t.Rejects(n, other) {
      var i': nat, k': nat :| i' < n && t.At(i', k') == Reject(other) && t.NoneRejected(i', k');
    }
  }

  method ScanTable<T>(t: Table<T>, n: nat) returns (r: Outcome<T>)
    ensures !r.ApiTooLow? && !r.NullRuntime?
    ensures r.Accepted? ==> exists i: nat, k: nat :: i < n && t.At(i, k) == Accept(r.value) && t.AllBefore(i, k)
    ensures r.Aborted? ==> exists i: nat, k: nat :: i < n && t.At(i, k) == Abort && t.AllBefore(i, k)
    ensures r.Exhausted? ==>
              && t.AllBefore(n, 0)
              && (r.foundVm <==> exists i: nat :: i < n && t.vmAt(i))
              && t.FirstRejection(n, 0, r.failure)
  {
    var foundVm := false;
    var failure: Option<TrampolineError> := None;
    var i: nat := 0;
    while i < n
      invariant i <= n
      invariant t.AllBefore(i, 0)
      invariant foundVm <==> exists i': nat :: i' < i && t.vmAt(i')
      invariant t.FirstRejection(i, 0, failure)
    {
      if t.vmAt(i) {
        foundVm := true;
        var k: nat := 0;
        while k < t.guesses(i)
          invariant k <= t.guesses(i)
          invariant t.AllBefore(i, k)
          invariant t.FirstRejection(i, k, failure)
        {
          var verdict := t.judge(i, k);
          assert verdict == t.At(i, k);
          match verdict {
            case Accept(value) => return Accepted(value);
            case Abort => return Aborted;
            case Reject(reason) =>
              if failure.None? {
                failure := Some(reason);
              }
            case Skip =>
          }
          k := k + 1;
        }
      }
      i := i + 1;
    }
    return Exhausted(foundVm, failure);
  }

  /** The lexicographically first guess that is accepted, or what became of them all. */
  method ScanCandidates<T>(s: Scan<T>) returns (r: Outcome<T>)
    ensures r.ApiTooLow? <==> s.apiLevel < LOWEST_API
    ensures r.NullRuntime? <==> s.apiLevel >= LOWEST_API && s.runtime == 0
    ensures r.Accepted? ==>
              exists i: nat, k: nat :: i < s.VmSlots() && s.Questions().At(i, k) == Accept(r.value)
                                       && s.Questions().AllBefore(i, k)
    ensures r.Aborted? ==>
              exists i: nat, k: nat :: i < s.VmSlots() && s.Questions().At(i, k) == Abort
                                       && s.Questions().AllBefore(i, k)
    ensures r.Exhausted? ==>
              && s.Questions().AllBefore(s.VmSlots(), 0)
              && (r.foundVm <==> exists i: nat :: i < s.VmSlots() && s.Questions().vmAt(i))
              && s.Questions().FirstRejection(s.VmSlots(), 0, r.failure)
  {
    if s.apiLevel < LOWEST_API {
      return ApiTooLow;
    }
    if s.runtime == 0 {
      return NullRuntime;
    }
    r := ScanTable(s.Questions(), s.VmSlots());
  }

  /**
    A verdict other than Skip is about a layout whose words are all readable and whose pointers are set and
    readable.
  */
  lemma JudgedLayoutIsReadable<T>(s: Scan<T>, i: nat, k: nat)
    requires !s.Questions().At(i, k).Skip?
    ensures s.VmAt(i) && k < |Candidates(s.apiLevel, s.VmOffset(i))|
    ensures var l := s.ReadLayout(Candidates(s.apiLevel, s.VmOffset(i))[k]);
            && l.Some? && s.PointersSet(l.value) && s.PointersReadable(l.value)
            && s.accept(l.value) == s.Questions().At(i, k)
  {}

  // ---------------------------------------------------------------------------
  // With the trampolines as the accepting question

  type JniIds = RuntimeLayout -> Result<Option<int>, ()>

  function AcceptTrampolines(m: Memory, apiLevel: int, predicates: Option<Predicates>, jniIds: JniIds)
    : RuntimeLayout -> Verdict<(RuntimeLayout, TrampolineSet)>
  {
    (l: RuntimeLayout) =>
      match jniIds(l)
      case Err(_) => Abort
      case Ok(indirection) =>
        var layout := l.(jniIdsIndirection := indirection);
        match Search(m, layout, apiLevel, predicates).Detected()
        case Ok(trampolines) => Accept((layout, trampolines))
        case Err(reason) => Reject(reason)
  }

  datatype DetectError = Scanned(error: TrampolineError) | NoClassLinker | NoFieldOffsets | Unsupported

  /**
    The result is decided by the window: the first guess that is accepted, with its trampolines, or the one
    error that describes it.
  */
  method DetectRuntimeLayoutAndTrampolines(apiLevel: int, runtime: Word, vmValue: Word, m: Memory,
                                           predicates: Option<Predicates>, jniIds: JniIds)
    returns (r: Result<(RuntimeLayout, TrampolineSet), DetectError>)
    ensures var s := Scan(apiLevel, runtime, vmValue, m, AcceptTrampolines(m, apiLevel, predicates, jniIds));
            var t, n := s.Questions(), s.VmSlots();
            var scanned := apiLevel >= LOWEST_API && runtime != 0;
            && (r.Ok? <==> scanned && t.Accepts(n))
            && (r.Ok? ==> exists i: nat, k: nat :: i < n && t.At(i, k) == Accept(r.value) && t.AllBefore(i, k))
            && (r.Ok? ==> s.PointersSet(r.value.0) && s.PointersReadable(r.value.0)
                          && Search(m, r.value.0, apiLevel, predicates).Detected() == Ok(r.value.1))
            && (r == Err(NoFieldOffsets) <==> scanned && t.NothingFound(n))
            && (r == Err(NoClassLinker) <==> scanned && !t.NothingFound(n) && t.AllSkipped(n))
            && (forall reason :: r == Err(Scanned(reason)) <==> scanned && t.Rejects(n, reason))
            && (r == Err(Unsupported) <==> !scanned || t.Aborts(n))
  {
    var s := Scan(apiLevel, runtime, vmValue, m, AcceptTrampolines(m, apiLevel, predicates, jniIds));
    var outcome := ScanCandidates(s);
    ghost var t, n := s.Questions(), s.VmSlots();
    AcceptsOrAborts(t, n);
    if outcome.Accepted? {
      ghost var i: nat, k: nat :| i < n && t.At(i, k) == Accept(outcome.value) && t.AllBefore(i, k);
      AcceptedLayout(s, predicates, jniIds, i, k);
    }
    ExhaustedMeans(t, n, outcome);
    r := Judged(outcome);
  }

  /** The source's error for each way the scan can end. */
  function Judged(outcome: Outcome<(RuntimeLayout, TrampolineSet)>)
    : Result<(RuntimeLayout, TrampolineSet), DetectError>
  {
    match outcome
    case Accepted(found) => Ok(found)
    case Exhausted(_, Some(reason)) => Err(Scanned(reason))
    case Exhausted(true, None) => Err(NoClassLinker)
    case Exhausted(false, None) => Err(NoFieldOffsets)
    case _ => Err(Unsupported)
  }

  lemma ExhaustedMeans<T>(t: Table<T>, n: nat, outcome: Outcome<T>)
    requires outcome.Exhausted? ==>
               && t.AllBefore(n, 0)
               && (outcome.foundVm <==> exists i: nat :: i < n && t.vmAt(i))
               && t.FirstRejection(n, 0, outcome.failure)
    ensures outcome.Exhausted? ==>
              && (outcome.foundVm <==> !t.NothingFound(n))
              && (outcome.failure.None? <==> t.AllSkipped(n))
              && (forall reason :: t.Rejects(n, reason) <==> outcome.failure == Some(reason))
  {
    if outcome.Exhausted? {
      if outcome.failure.Some? {
        forall reason ensures t.Rejects(n, reason) <==> outcome.failure == Some(reason) {
          RejectsOnce(t, n, outcome.failure.value, reason);
        }
      } else {
        forall i: nat, k: nat | i < n ensures t.At(i, k).Skip? {
          assert t.Passed(i, k) && !t.At(i, k).Reject?;
        }
      }
    }
  }

  lemma AcceptedLayout(s: Scan<(RuntimeLayout, TrampolineSet)>, predicates: Option<Predicates>, jniIds: JniIds,
                       i: nat, k: nat)
    requires s.accept == AcceptTrampolines(s.m, s.apiLevel, predicates, jniIds) && s.Questions().At(i, k).Accept?
    ensures var (layout, trampolines) := s.Questions().At(i, k).value;
            && s.PointersSet(layout) && s.PointersReadable(layout)
            && Search(s.m, layout, s.apiLevel, predicates).Detected() == Ok(trampolines)
  {
    JudgedLayoutIsReadable(s, i, k);
  }
}
