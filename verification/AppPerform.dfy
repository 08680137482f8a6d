/**
  The deferred-callback protocol of `Java::perform` (src/java/perform.rs, src/java/handle.rs).
  The lock-protected fields are a class whose methods are the critical sections; the protocol is a
  state machine in which any number of activities interleave between critical sections.
*/
module AppPerform {
  import opened Wrappers

  type OpId = nat
  type Activity = nat
  type Loader = nat  // a class-loader object, up to `IsSameObject`

  // ---------------------------------------------------------------------------
  // The startup drain state

  datatype HookPoint = Early | Late

  datatype Source = CurrentApplication | Application | LoadedApk

  datatype StartupDrain =
    | Waiting(hookpoint: HookPoint)
    | Draining(hookpoint: HookPoint, source: Source)
    | Initialized(source: Source)
  {
    function RequireLate(): StartupDrain {
      if this == Waiting(Early) then Waiting(Late) else this
    }

    predicate CanBegin(source: Source) {
      Waiting? && !(source == LoadedApk && hookpoint == Late)
    }

    function Begin(source: Source): StartupDrain {
      if CanBegin(source) then Draining(hookpoint, source) else this
    }

    function Finish(success: bool): StartupDrain {
      if Draining? then (if success then Initialized(source) else Waiting(hookpoint)) else this
    }
  }

  // ---------------------------------------------------------------------------
  // The fields behind the lock

  /** Which of the three hooks could be installed. */
  datatype Hooks = Hooks(bindApplication: bool, makeApplication: bool, getPackageInfo: bool)
  {
    /** One of the two hooks that drain is enough. */
    predicate CanDrain() {
      makeApplication || getPackageInfo
    }
  }

  /** The fields, and each critical section as a function of them. */
  datatype Inner = Inner(default: Option<Loader>, pending: seq<OpId>, hooks: Option<Hooks>, drain: StartupDrain)
  {
    function Publish(loader: Loader): Inner {
      this.(default := Some(loader))
    }

    function Enqueue(op: OpId): Inner {
      this.(pending := pending + [op])
    }

    function TakePending(): Inner {
      this.(pending := [])
    }

    /** Hooks once installed stay; new ones are kept if one of them drains. */
    function EnsureHook(installed: Hooks): Inner {
      if hooks.None? && installed.CanDrain() then this.(hooks := Some(installed)) else this
    }

    function Begin(source: Source): Inner {
      this.(drain := drain.Begin(source))
    }

    function Finish(success: bool): Inner {
      this.(drain := drain.Finish(success))
    }

    function RequireLate(): Inner {
      this.(drain := drain.RequireLate())
    }

    /** Whether the hook behind a drain is in place. */
    predicate HookFor(source: Source) {
      && hooks.Some?
      && (source.Application? ==> hooks.value.makeApplication)
      && (source.LoadedApk? ==> hooks.value.getPackageInfo)
    }
  }

  /** `AppPerformState`: each method is one critical section. */
  class AppPerformState {
    var default: Option<Loader>
    var pending: seq<OpId>
    var hooks: Option<Hooks>
    var startupDrain: StartupDrain

    function View(): Inner
      reads this
    {
      Inner(default, pending, hooks, startupDrain)
    }

    constructor ()
      ensures View() == Inner(None, [], None, Waiting(Early))
    {
      default, pending, hooks, startupDrain := None, [], None, Waiting(Early);
    }

    /** Publishing needs an attached thread and, if there is a default already, a comparison with it. */
    method PublishAppLoader(loader: Loader, attached: bool, comparable: bool) returns (ok: bool)
      modifies this
      ensures ok == (attached && (old(default).Some? ==> comparable))
      ensures View() == if ok then old(View()).Publish(loader) else old(View())
    {
      if !attached || (default.Some? && !comparable) {
        return false;
      }
      if default == Some(loader) {
        return true;
      }
      default := Some(loader);
      return true;
    }

    method BeginStartupDrain(source: Source) returns (begun: bool)
      modifies this
      ensures begun == old(startupDrain).CanBegin(source)
      ensures View() == old(View()).Begin(source)
    {
      if !startupDrain.Waiting? {
        return false;
      }
      if source == LoadedApk && startupDrain.hookpoint == Late {
        return false;
      }
      startupDrain := Draining(startupDrain.hookpoint, source);
      return true;
    }

    method FinishStartupDrain(success: bool)
      modifies this
      ensures View() == old(View()).Finish(success)
    {
      if !startupDrain.Draining? {
        return;
      }
      startupDrain := if success then Initialized(startupDrain.source) else Waiting(startupDrain.hookpoint);
    }

    method RequireLateStartupDrain()
      modifies this
      ensures View() == old(View()).RequireLate()
    {
      if startupDrain == Waiting(Early) {
        startupDrain := Waiting(Late);
      }
    }

    method Enqueue(op: OpId)
      modifies this
      ensures View() == old(View()).Enqueue(op)
    {
      pending := pending + [op];
    }

    /** The swap at the start of `drain_with_app_java`. */
    method TakePending() returns (batch: seq<OpId>)
      modifies this
      ensures batch == old(pending) && View() == old(View()).TakePending()
    {
      batch, pending := pending, [];
    }

    method EnsureHook(installed: Hooks) returns (ok: bool)
      modifies this
      ensures View() == old(View()).EnsureHook(installed)
      ensures ok == hooks.Some? == (old(hooks).Some? || installed.CanDrain())
    {
      if hooks.Some? {
        return true;
      }
      if !installed.makeApplication && !installed.getPackageInfo {
        return false;
      }
      hooks := Some(installed);
      return true;
    }
  }

  // ---------------------------------------------------------------------------
  // Activities: where a call of `perform`, a hook or a drain stands

  datatype Status = Pending | Completed | Failed

  /** The value cell of a `PerformResult`. */
  datatype Slot = Empty | HoldsOk | HoldsErr | Taken

  datatype Next = Return | Resume(source: Source, loader: Loader, batch: seq<OpId>)
  {
    function Rest(): seq<OpId> {
      if Resume? then batch else []
    }
  }

  /** What an activity holds: an operation not yet handed over, being run, or run but not settled, and a batch. */
  datatype Holding = Holding(local: Option<OpId>, running: Option<OpId>, ran: Option<OpId>, batch: seq<OpId>)

  const NOTHING := Holding(None, None, None, [])

  datatype Pc =
    | Idle
    // perform, before its callback is handed over
    | Checking(op: OpId) | Locating(op: OpId) | Publishing(op: OpId, loader: Loader)
    | Hooking(op: OpId) | Enqueuing(op: OpId)
    // a drain
    | Beginning(source: Source) | Probing(source: Source) | DrainPublishing(source: Source, loader: Loader)
    | Swapping(source: Source, loader: Loader) | DrainingBatch(source: Source, loader: Loader, batch: seq<OpId>)
    | Finishing(source: Source, success: bool)
    // complete_perform, for either
    | Running(op: OpId, loader: Loader, next: Next) | Settling(op: OpId, status: Status, next: Next)
  {
    /** The operations this activity is responsible for. */
    function Held(): Holding {
      if Checking? || Locating? || Publishing? || Hooking? || Enqueuing? then NOTHING.(local := Some(op))
      else if Running? then NOTHING.(running := Some(op), batch := next.Rest())
      else if Settling? then NOTHING.(ran := Some(op), batch := next.Rest())
      else if DrainingBatch? then NOTHING.(batch := batch)
      else NOTHING
    }

    /** Everything a drain took from the queue and has not finished. */
    function DrainHolds(): seq<OpId> {
      if (Running? || Settling?) && next.Resume? then [op] + next.batch
      else if DrainingBatch? then batch
      else []
    }

    /** Between a successful begin and its finish, and for which source. */
    function InDrain(): Option<Source> {
      if Probing? || DrainPublishing? || Swapping? || DrainingBatch? || Finishing? then Some(source)
      else if (Running? || Settling?) && next.Resume? then Some(next.source)
      else None
    }

    predicate Swapped() {
      DrainingBatch? || (Finishing? && success) || ((Running? || Settling?) && next.Resume?)
    }

    predicate NeedsLoader() {
      Swapping? || Running? || Swapped()
    }
  }

  datatype Place =
    | Local(who: Activity) | Queued | Batched(who: Activity) | RunningIn(who: Activity) | RanIn(who: Activity)
    | Finished | Refused | Discarded

  /** What an observer writes down; no step reads it. */
  datatype History = History(
    place: map<OpId, Place>,
    runs: map<OpId, nat>,
    settled: map<OpId, nat>,
    enqueued: seq<OpId>,
    drained: seq<OpId>,
    enqueuedAfterSwap: seq<OpId>,
    discarded: seq<OpId>,
    swaps: nat,
    drainer: Option<Activity>,
    lateWhileWaiting: bool,
    dropped: bool)

  datatype State = State(
    inner: Inner,
    bindHooked: bool,  // the handleBindApplication hook has been in place, if only while ensure_hook ran
    pcs: map<Activity, Pc>,
    status: map<OpId, Status>,
    slot: map<OpId, Slot>,
    h: History)
  {
    function Pc(a: Activity): Pc {
      if a in pcs then pcs[a] else Idle
    }

    /** Activity `a` moves on. */
    function Go(a: Activity, pc: Pc): State {
      this.(pcs := pcs[a := pc])
    }

    /** Activity `a` moves on and the operation changes place. */
    function Move(a: Activity, pc: Pc, op: OpId, place: Place): State {
      this.(pcs := pcs[a := pc], h := h.(place := h.place[op := place]))
    }
  }

  const START := State(Inner(None, [], None, Waiting(Early)), false, map[], map[], map[],
                       History(map[], map[], map[], [], [], [], [], 0, None, false, false))

  // ---------------------------------------------------------------------------
  // Steps

  datatype Located = Found(loader: Loader) | Unavailable | OtherError

  datatype Outcome = AttachFailed | Returned(ok: bool) | Panicked

  datatype Event =
    | StartPerform(a: Activity, op: OpId)
    | Check(a: Activity)
    | Locate(a: Activity, located: Located)
    | Publish(a: Activity, ok: bool)
    | EnsureHook(a: Activity, installed: Hooks)
    | Enqueue(a: Activity)
    | WaitHook(a: Activity, installed: Hooks)
    | HookFires(a: Activity, source: Source)
    | Begin(a: Activity)
    | Probe(a: Activity, found: Option<Loader>)
    | Swap(a: Activity)
    | Pop(a: Activity)
    | Call(a: Activity, outcome: Outcome)
    | Settle(a: Activity)
    | Finish(a: Activity)
    | LateSignal
    | PublishForWait(loader: Loader)
    | TakeResult(op: OpId)
    | DropState

  // -- perform

  function StepStartPerform(s: State, a: Activity, op: OpId): Option<State> {
    if s.Pc(a) != Idle || op in s.status then None
    else Some(s.(pcs := s.pcs[a := Checking(op)], status := s.status[op := Pending], slot := s.slot[op := Empty],
                 h := s.h.(place := s.h.place[op := Local(a)],
                           runs := s.h.runs[op := 0], settled := s.h.settled[op := 0])))
  }

  function StepCheck(s: State, a: Activity): Option<State> {
    if !s.Pc(a).Checking? then None else
    var op := s.Pc(a).op;
    match s.inner.default
    case Some(loader) => Some(s.Move(a, Running(op, loader, Return), op, RunningIn(a)))
    case None => Some(s.Go(a, Locating(op)))
  }

  function StepLocate(s: State, a: Activity, located: Located): Option<State> {
    if !s.Pc(a).Locating? then None else
    var op := s.Pc(a).op;
    match located
    case Found(loader) => Some(s.Go(a, Publishing(op, loader)))
    case Unavailable => Some(s.Go(a, Hooking(op)))
    case OtherError => Some(s.Move(a, Idle, op, Refused))
  }

  function StepPublish(s: State, a: Activity, ok: bool): Option<State> {
    match s.Pc(a)
    case Publishing(op, loader) =>
      if !ok then Some(s.Move(a, Idle, op, Refused))
      else Some(s.Move(a, Running(op, loader, Return), op, RunningIn(a)).(inner := s.inner.Publish(loader)))
    case DrainPublishing(source, loader) =>
      if !ok then Some(s.Go(a, Finishing(source, false)))
      else Some(s.Go(a, Swapping(source, loader)).(inner := s.inner.Publish(loader)))
    case _ => None
  }

  /** `ensure_hook`, which installs nothing more once hooks are in place. */
  function Hooked(s: State, installed: Hooks): State {
    s.(inner := s.inner.EnsureHook(installed),
       bindHooked := s.bindHooked || (s.inner.hooks.None? && installed.bindApplication))
  }

  function StepEnsureHook(s: State, a: Activity, installed: Hooks): Option<State> {
    if !s.Pc(a).Hooking? then None else
    var op := s.Pc(a).op;
    var hooked := Hooked(s, installed);
    if hooked.inner.hooks.Some? then Some(hooked.Go(a, Enqueuing(op))) else Some(hooked.Move(a, Idle, op, Refused))
  }

  function StepEnqueue(s: State, a: Activity): Option<State> {
    if !s.Pc(a).Enqueuing? then None else
    var op := s.Pc(a).op;
    Some(s.(pcs := s.pcs[a := Beginning(CurrentApplication)],
            inner := s.inner.Enqueue(op),
            h := s.h.(place := s.h.place[op := Queued], enqueued := s.h.enqueued + [op],
                      enqueuedAfterSwap := if s.h.swaps == 0 then [] else s.h.enqueuedAfterSwap + [op])))
  }

  // -- drains

  /** A wait for the loader ensures the hooks, then drains if it can. */
  function StepWaitHook(s: State, a: Activity, installed: Hooks): Option<State> {
    if s.Pc(a) != Idle then None else
    var hooked := Hooked(s, installed);
    Some(hooked.Go(a, if hooked.inner.hooks.Some? then Beginning(CurrentApplication) else Idle))
  }

  /** A drain from inside a hooked method: it can only come from an installed hook. */
  function StepHookFires(s: State, a: Activity, source: Source): Option<State> {
    if s.Pc(a) != Idle || source == CurrentApplication || !s.inner.HookFor(source) then None
    else Some(s.Go(a, Beginning(source)))
  }

  function StepBegin(s: State, a: Activity): Option<State> {
    if !s.Pc(a).Beginning? then None else
    var source := s.Pc(a).source;
    if s.inner.drain.CanBegin(source)
    then Some(s.Go(a, Probing(source)).(inner := s.inner.Begin(source), h := s.h.(drainer := Some(a))))
    else Some(s.Go(a, Idle))
  }

  function StepProbe(s: State, a: Activity, found: Option<Loader>): Option<State> {
    if !s.Pc(a).Probing? then None else
    var source := s.Pc(a).source;
    match found
    case Some(loader) => Some(s.Go(a, DrainPublishing(source, loader)))
    case None => Some(s.Go(a, Finishing(source, false)))
  }

  function StepSwap(s: State, a: Activity): Option<State> {
    if !s.Pc(a).Swapping? then None else
    var Swapping(source, loader) := s.Pc(a);
    Some(s.(pcs := s.pcs[a := DrainingBatch(source, loader, s.inner.pending)],
            inner := s.inner.TakePending(),
            h := s.h.(place := map op <- s.h.place :: if s.h.place[op] == Queued then Batched(a) else s.h.place[op],
                      swaps := s.h.swaps + 1)))
  }

  function StepPop(s: State, a: Activity): Option<State> {
    if !s.Pc(a).DrainingBatch? then None else
    var DrainingBatch(source, loader, batch) := s.Pc(a);
    if batch == [] then Some(s.Go(a, Finishing(source, true)))
    else Some(s.Move(a, Running(batch[0], loader, Resume(source, loader, batch[1..])), batch[0], RunningIn(a)))
  }

  function StepFinish(s: State, a: Activity): Option<State> {
    if !s.Pc(a).Finishing? then None
    else Some(s.Go(a, Idle).(inner := s.inner.Finish(s.Pc(a).success), h := s.h.(drainer := None)))
  }

  // -- complete_perform

  /** Attach and call; a callback that returns has stored its result before its status is set. */
  function StepRun(s: State, a: Activity, outcome: Outcome): Option<State> {
    if !s.Pc(a).Running? || s.Pc(a).op !in s.h.runs || s.Pc(a).op !in s.slot then None else
    var Running(op, _, next) := s.Pc(a);
    var status := if outcome == Returned(true) then Completed else Failed;
    var called := if outcome.AttachFailed? then 0 else 1;
    var stored := if !outcome.Returned? then s.slot[op] else if outcome.ok then HoldsOk else HoldsErr;
    Some(s.(pcs := s.pcs[a := Settling(op, status, next)],
            slot := s.slot[op := stored],
            h := s.h.(place := s.h.place[op := RanIn(a)], runs := s.h.runs[op := s.h.runs[op] + called])))
  }

  function StepSettle(s: State, a: Activity): Option<State> {
    if !s.Pc(a).Settling? || s.Pc(a).op !in s.h.settled then None else
    var Settling(op, status, next) := s.Pc(a);
    Some(s.(pcs := s.pcs[a := if next.Return? then Idle else DrainingBatch(next.source, next.loader, next.batch)],
            status := s.status[op := status],
            h := s.h.(place := s.h.place[op := Finished], settled := s.h.settled[op := s.h.settled[op] + 1],
                      drained := if next.Return? then s.h.drained else s.h.drained + [op])))
  }

  // -- the rest of the world

  /** Late signals come from the handleBindApplication hook. */
  function StepLateSignal(s: State): Option<State> {
    if !s.bindHooked then None
    else Some(s.(inner := s.inner.RequireLate(),
                 h := s.h.(lateWhileWaiting := s.h.lateWhileWaiting || s.inner.drain.Waiting?)))
  }

  function StepTakeResult(s: State, op: OpId): Option<State> {
    if op !in s.slot || s.slot[op] == Empty then None else Some(s.(slot := s.slot[op := Taken]))
  }

  /** Dropping the state fails whatever is still queued; nothing else can hold the state by then. */
  function StepDrop(s: State): Option<State> {
    if (exists a <- s.pcs :: s.pcs[a] != Idle) then None
    else Some(s.(inner := s.inner.TakePending(),
                 status := map op <- s.status :: if op in s.inner.pending then Failed else s.status[op],
                 h := s.h.(place := map op <- s.h.place :: if s.h.place[op] == Queued then Discarded else s.h.place[op],
                           settled := map op <- s.h.settled ::
                             s.h.settled[op] + (if op in s.inner.pending then 1 else 0),
                           discarded := s.inner.pending, dropped := true)))
  }

  function Step(s: State, e: Event): Option<State> {
    if s.h.dropped then None else
    match e
    case StartPerform(a, op) => StepStartPerform(s, a, op)
    case Check(a) => StepCheck(s, a)
    case Locate(a, located) => StepLocate(s, a, located)
    case Publish(a, ok) => StepPublish(s, a, ok)
    case EnsureHook(a, installed) => StepEnsureHook(s, a, installed)
    case Enqueue(a) => StepEnqueue(s, a)
    case WaitHook(a, installed) => StepWaitHook(s, a, installed)
    case HookFires(a, source) => StepHookFires(s, a, source)
    case Begin(a) => StepBegin(s, a)
    case Probe(a, found) => StepProbe(s, a, found)
    case Swap(a) => StepSwap(s, a)
    case Pop(a) => StepPop(s, a)
    case Call(a, outcome) => StepRun(s, a, outcome)
    case Settle(a) => StepSettle(s, a)
    case Finish(a) => StepFinish(s, a)
    case LateSignal => StepLateSignal(s)
    case PublishForWait(loader) => Some(s.(inner := s.inner.Publish(loader)))
    case TakeResult(op) => StepTakeResult(s, op)
    case DropState => StepDrop(s)
  }

  /** A run: events applied in order, each of them possible where it comes. */
  function Run(events: seq<Event>): Option<State> {
    if events == [] then Some(START)
    else match Run(events[..|events| - 1])
      case None => None
      case Some(s) => Step(s, events[|events| - 1])
  }
}
