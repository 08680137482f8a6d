/**
  Safety of the deferred-callback protocol over every run: one drain at a time, one fate for each
  callback, enqueue order, and exactly which callbacks are left behind.
*/
module AppPerformSafety {
  import opened AppPerform
  import opened Wrappers

  // ---------------------------------------------------------------------------
  // Invariants

  ghost predicate NoRepeats(ops: seq<OpId>) {
    forall i, j :: 0 <= i < j < |ops| ==> ops[i] != ops[j]
  }

  ghost function HeldBy(hold: map<Activity, Holding>, a: Activity): Holding {
    if a in hold then hold[a] else NOTHING
  }

  ghost predicate Is(place: map<OpId, Place>, op: OpId, at: Place) {
    op in place && place[op] == at
  }

  /** The operation is where its place says. */
  ghost predicate Sits(hold: map<Activity, Holding>, pending: seq<OpId>, op: OpId, at: Place) {
    match at
    case Local(a) => HeldBy(hold, a).local == Some(op)
    case RunningIn(a) => HeldBy(hold, a).running == Some(op)
    case RanIn(a) => HeldBy(hold, a).ran == Some(op)
    case Batched(a) => op in HeldBy(hold, a).batch
    case Queued => op in pending
    case _ => true
  }

  /** Whatever activity `a` holds has its place there. */
  ghost predicate Mine(h: Holding, a: Activity, place: map<OpId, Place>) {
    && (h.local.Some? ==> Is(place, h.local.value, Local(a)))
    && (h.running.Some? ==> Is(place, h.running.value, RunningIn(a)))
    && (h.ran.Some? ==> Is(place, h.ran.value, RanIn(a)))
    && (forall op <- h.batch :: Is(place, op, Batched(a)))
    && NoRepeats(h.batch)
  }

  ghost predicate Ledger(hold: map<Activity, Holding>, pending: seq<OpId>, place: map<OpId, Place>) {
    && (forall op <- place :: Sits(hold, pending, op, place[op]))
    && (forall a <- hold :: Mine(hold[a], a, place))
    && (forall op <- pending :: Is(place, op, Queued))
    && NoRepeats(pending)
  }

  ghost function Holdings(s: State): map<Activity, Holding> {
    map a <- s.pcs :: s.pcs[a].Held()
  }

  /** Every operation is in exactly one place: a place map that all the holders agree with. */
  ghost predicate Places(s: State) {
    && s.h.place.Keys == s.status.Keys == s.slot.Keys == s.h.runs.Keys == s.h.settled.Keys
    && Ledger(Holdings(s), s.inner.pending, s.h.place)
  }

  /** What an operation's place says about how often it ran and settled, its status and its value. */
  ghost predicate Tally(at: Place, runs: nat, settled: nat, status: Status, slot: Slot) {
    match at
    case RanIn(_) => runs <= 1 && settled == 0 && status == Pending && (runs == 0 ==> slot == Empty)
    case Finished =>
      && runs <= 1 && settled == 1 && status != Pending
      && (runs == 0 ==> slot == Empty)
      && (status == Completed ==> runs == 1 && (slot == HoldsOk || slot == Taken))
    case Discarded => runs == 0 && settled == 1 && status == Failed && slot == Empty
    case _ => runs == 0 && settled == 0 && status == Pending && slot == Empty
  }

  ghost predicate Tallies(s: State)
    requires s.h.place.Keys == s.status.Keys == s.slot.Keys == s.h.runs.Keys == s.h.settled.Keys
  {
    forall op <- s.h.place :: Tally(s.h.place[op], s.h.runs[op], s.h.settled[op], s.status[op], s.slot[op])
  }

  /** The status about to be recorded is final, and Completed only after the value was stored. */
  ghost predicate Decided(s: State, pc: Pc) {
    pc.Settling? ==>
      && pc.op in s.slot && pc.op in s.h.runs && pc.status != Pending
      && (pc.status == Completed ==> s.h.runs[pc.op] == 1 && (s.slot[pc.op] == HoldsOk || s.slot[pc.op] == Taken))
  }

  ghost predicate Outcomes(s: State) {
    forall a <- s.pcs :: Decided(s, s.pcs[a])
  }

  /** One drain at a time, and after the first that swapped, never another. */
  ghost predicate OneDrain(s: State) {
    && (forall a <- s.pcs :: s.pcs[a].InDrain().Some? <==> s.h.drainer == Some(a))
    && (s.inner.drain.Draining? <==> s.h.drainer.Some?)
    && (s.h.drainer.Some? ==>
          s.h.drainer.value in s.pcs && s.pcs[s.h.drainer.value].InDrain() == Some(s.inner.drain.source))
    && s.h.swaps <= 1
    && (s.h.swaps == 1 <==> s.inner.drain.Initialized? || (s.h.drainer.Some? && s.Pc(s.h.drainer.value).Swapped()))
    && (!s.inner.drain.Initialized? ==> (s.inner.drain.hookpoint == Late <==> s.h.lateWhileWaiting))
  }

  /** Callbacks and swaps happen only after a default loader was published. */
  ghost predicate LoaderFirst(s: State) {
    && (forall a <- s.pcs :: s.pcs[a].NeedsLoader() ==> s.inner.default.Some?)
    && (s.h.swaps == 1 ==> s.inner.default.Some?)
  }

  ghost function InFlight(s: State): seq<OpId> {
    if s.h.drainer.None? then [] else s.Pc(s.h.drainer.value).DrainHolds()
  }

  /** Everything ever enqueued, in order: finished by the drain, held by it, discarded, still queued. */
  ghost predicate InOrder(s: State) {
    && s.h.enqueued == s.h.drained + InFlight(s) + s.h.discarded + s.inner.pending
    && (s.h.swaps == 0 ==> s.h.drained == [] && s.h.enqueuedAfterSwap == [])
    && (s.h.swaps == 1 ==> s.h.discarded + s.inner.pending == s.h.enqueuedAfterSwap)
    && (!s.h.dropped ==> s.h.discarded == [])
    && (s.h.dropped ==> s.inner.pending == [])
  }

  ghost predicate Ops(s: State) {
    Places(s) && Tallies(s) && Outcomes(s)
  }

  ghost predicate Inv(s: State) {
    Ops(s) && OneDrain(s) && LoaderFirst(s) && InOrder(s)
  }

  // ---------------------------------------------------------------------------
  // Moving an operation from one holder to the next

  lemma HeldIsPlaced(s: State, a: Activity)
    requires Places(s)
    ensures Mine(s.Pc(a).Held(), a, s.h.place) && s.Pc(a).Held() == HeldBy(Holdings(s), a)
  {
    if a in s.pcs {
      assert Holdings(s)[a] == s.pcs[a].Held();
    }
  }

  /** Only activity `a` moved. */
  ghost predicate Moved(s: State, s': State, a: Activity) {
    a in s'.pcs && s'.pcs == s.pcs[a := s'.pcs[a]]
  }

  lemma HoldingsAfter(s: State, s': State, a: Activity)
    requires Moved(s, s', a)
    ensures Holdings(s') == Holdings(s)[a := s'.pcs[a].Held()]
  {}

  lemma LedgerKeep(hold: map<Activity, Holding>, pending: seq<OpId>, place: map<OpId, Place>, a: Activity)
    requires Ledger(hold, pending, place)
    ensures Ledger(hold[a := HeldBy(hold, a)], pending, place)
  {}

  lemma NoneRepeats()
    ensures NoRepeats([])
  {}

  lemma LedgerAdd(hold: map<Activity, Holding>, pending: seq<OpId>, place: map<OpId, Place>, a: Activity, op: OpId)
    requires Ledger(hold, pending, place) && HeldBy(hold, a) == NOTHING && op !in place
    ensures Ledger(hold[a := NOTHING.(local := Some(op))], pending, place[op := Local(a)])
  {
    hide NoRepeats;
    NoneRepeats();
  }

  /** What becomes of the operation an activity holds: run at once, refused, or queued. */
  lemma LedgerRunNow(hold: map<Activity, Holding>, pending: seq<OpId>, place: map<OpId, Place>, a: Activity, op: OpId)
    requires Ledger(hold, pending, place) && HeldBy(hold, a) == NOTHING.(local := Some(op))
    ensures Ledger(hold[a := NOTHING.(running := Some(op))], pending, place[op := RunningIn(a)])
  {
    assert Mine(hold[a], a, place);
  }

  lemma LedgerRefuse(hold: map<Activity, Holding>, pending: seq<OpId>, place: map<OpId, Place>, a: Activity, op: OpId)
    requires Ledger(hold, pending, place) && HeldBy(hold, a) == NOTHING.(local := Some(op))
    ensures Ledger(hold[a := NOTHING], pending, place[op := Refused])
  {
    assert Mine(hold[a], a, place);
  }

  lemma LedgerQueue(hold: map<Activity, Holding>, pending: seq<OpId>, place: map<OpId, Place>, a: Activity, op: OpId)
    requires Ledger(hold, pending, place) && HeldBy(hold, a) == NOTHING.(local := Some(op))
    ensures Ledger(hold[a := NOTHING], pending + [op], place[op := Queued])
  {
    assert Mine(hold[a], a, place);
    var longer := pending + [op];
    assert forall x <- longer :: x in pending || x == op;
    assert longer[|pending|] == op && forall x <- pending :: x in longer;
    NoRepeatsSnoc(pending, op);
  }

  lemma NoRepeatsSnoc(ops: seq<OpId>, op: OpId)
    requires NoRepeats(ops) && op !in ops
    ensures NoRepeats(ops + [op])
  {}

  lemma LedgerSwap(hold: map<Activity, Holding>, pending: seq<OpId>, place: map<OpId, Place>, a: Activity)
    requires Ledger(hold, pending, place) && HeldBy(hold, a) == NOTHING
    ensures Ledger(hold[a := NOTHING.(batch := pending)], [],
                   map op <- place :: if place[op] == Queued then Batched(a) else place[op])
  {
    hide NoRepeats;
    NoneRepeats();
  }

  lemma BatchTail(batch: seq<OpId>)
    requires NoRepeats(batch) && batch != []
    ensures NoRepeats(batch[1..])
    ensures forall x <- batch[1..] :: x in batch && x != batch[0]
    ensures forall x <- batch :: x == batch[0] || x in batch[1..]
  {}

  lemma LedgerPop(hold: map<Activity, Holding>, pending: seq<OpId>, place: map<OpId, Place>,
                  a: Activity, batch: seq<OpId>)
    requires Ledger(hold, pending, place) && HeldBy(hold, a) == NOTHING.(batch := batch) && batch != []
    ensures Ledger(hold[a := NOTHING.(running := Some(batch[0]), batch := batch[1..])], pending,
                   place[batch[0] := RunningIn(a)])
  {
    assert Mine(hold[a], a, place);
    BatchTail(batch);
    var h := NOTHING.(running := Some(batch[0]), batch := batch[1..]);
    var hold', place' := hold[a := h], place[batch[0] := RunningIn(a)];
    assert Mine(h, a, place');
    forall x | x in place'
      ensures Sits(hold', pending, x, place'[x])
    {
      assert x != batch[0] ==> Sits(hold, pending, x, place[x]);
    }
    assert Is(place, batch[0], Batched(a));
    forall b | b in hold' && b != a
      ensures Mine(hold'[b], b, place')
    {
      assert Mine(hold[b], b, place);
    }
  }

  lemma LedgerRan(hold: map<Activity, Holding>, pending: seq<OpId>, place: map<OpId, Place>,
                  a: Activity, op: OpId, batch: seq<OpId>)
    requires Ledger(hold, pending, place) && HeldBy(hold, a) == NOTHING.(running := Some(op), batch := batch)
    ensures Ledger(hold[a := NOTHING.(ran := Some(op), batch := batch)], pending, place[op := RanIn(a)])
  {}

  lemma LedgerSettled(hold: map<Activity, Holding>, pending: seq<OpId>, place: map<OpId, Place>,
                      a: Activity, op: OpId, batch: seq<OpId>)
    requires Ledger(hold, pending, place) && HeldBy(hold, a) == NOTHING.(ran := Some(op), batch := batch)
    ensures Ledger(hold[a := NOTHING.(batch := batch)], pending, place[op := Finished])
  {}

  lemma LedgerDrop(hold: map<Activity, Holding>, pending: seq<OpId>, place: map<OpId, Place>)
    requires Ledger(hold, pending, place)
    ensures Ledger(hold, [], map op <- place :: if place[op] == Queued then Discarded else place[op])
  {}

  // ---------------------------------------------------------------------------
  // Every step keeps the invariants

  /** At most operation `op` changed its place, counts, status or value. */
  ghost predicate OnlyOp(s: State, s': State, op: OpId) {
    && s.h.place.Keys == s.status.Keys == s.slot.Keys == s.h.runs.Keys == s.h.settled.Keys
    && s'.h.place.Keys == s.h.place.Keys + {op} == s'.status.Keys == s'.slot.Keys == s'.h.runs.Keys == s'.h.settled.Keys
    && forall x <- s.h.place :: x != op ==>
         && s'.h.place[x] == s.h.place[x] && s'.h.runs[x] == s.h.runs[x] && s'.h.settled[x] == s.h.settled[x]
         && s'.status[x] == s.status[x] && s'.slot[x] == s.slot[x]
  }

  lemma TallyOne(s: State, s': State, op: OpId)
    requires s.h.place.Keys == s.status.Keys == s.slot.Keys == s.h.runs.Keys == s.h.settled.Keys
    requires Tallies(s) && OnlyOp(s, s', op)
    requires Tally(s'.h.place[op], s'.h.runs[op], s'.h.settled[op], s'.status[op], s'.slot[op])
    ensures Tallies(s')
  {
    hide Tally;
  }

  /** No other activity is about to settle an operation that `a` alone answers for. */
  lemma OutcomesOne(s: State, s': State, a: Activity, op: OpId)
    requires Places(s) && Outcomes(s) && Moved(s, s', a) && OnlyOp(s, s', op)
    requires op in s.h.place && s.h.place[op].RanIn? ==> s.h.place[op].who == a
    requires Decided(s', s'.pcs[a])
    ensures Outcomes(s')
  {
    hide Sits, NoRepeats, Ledger;
    forall b | b in s'.pcs && b != a && s'.pcs[b].Settling?
      ensures Decided(s', s'.pcs[b])
    {
      HeldIsPlaced(s, b);
      assert Decided(s, s.pcs[b]);
    }
  }

  lemma OpsOne(s: State, s': State, a: Activity, op: OpId)
    requires Ops(s) && Places(s') && Moved(s, s', a) && OnlyOp(s, s', op)
    requires op in s.h.place && s.h.place[op].RanIn? ==> s.h.place[op].who == a
    requires Tally(s'.h.place[op], s'.h.runs[op], s'.h.settled[op], s'.status[op], s'.slot[op])
    requires Decided(s', s'.pcs[a])
    ensures Ops(s')
  {
    hide Ledger, Tally, Decided;
    TallyOne(s, s', op);
    OutcomesOne(s, s', a, op);
  }

  /** What is known of the operation an activity runs or settles. */
  lemma HeldFacts(s: State, a: Activity, op: OpId)
    requires Ops(s) && (s.Pc(a).Running? || s.Pc(a).Settling?) && s.Pc(a).op == op
    ensures op in s.h.place && s.h.place[op] == (if s.Pc(a).Running? then RunningIn(a) else RanIn(a))
    ensures Tally(s.h.place[op], s.h.runs[op], s.h.settled[op], s.status[op], s.slot[op]) && Decided(s, s.Pc(a))
  {
    HeldIsPlaced(s, a);
  }

  /** The activity moved on still holding what it held. */
  lemma HoldingKept(s: State, s': State, a: Activity)
    requires Ops(s) && Moved(s, s', a)
    requires s'.status == s.status && s'.slot == s.slot && s'.h.runs == s.h.runs && s'.h.settled == s.h.settled
    requires s'.pcs[a].Held() == s.Pc(a).Held() && !s'.pcs[a].Settling?
    requires s'.h.place == s.h.place && s'.inner.pending == s.inner.pending
    ensures Ops(s')
  {
    HeldIsPlaced(s, a);
    HoldingsAfter(s, s', a);
    LedgerKeep(Holdings(s), s.inner.pending, s.h.place, a);
  }

  ghost predicate HandsOver(s: State, s': State, a: Activity, op: OpId) {
    && Moved(s, s', a) && s.Pc(a).Held() == NOTHING.(local := Some(op))
    && s'.status == s.status && s'.slot == s.slot && s'.h.runs == s.h.runs && s'.h.settled == s.h.settled
    && (|| (s'.pcs[a].Held() == NOTHING.(running := Some(op)) && !s'.pcs[a].Settling? &&
            s'.h.place == s.h.place[op := RunningIn(a)] && s'.inner.pending == s.inner.pending)
        || (s'.pcs[a] == Idle && s'.h.place == s.h.place[op := Refused] && s'.inner.pending == s.inner.pending)
        || (s'.pcs[a].Beginning? && s'.h.place == s.h.place[op := Queued]
            && s'.inner.pending == s.inner.pending + [op]))
  }

  lemma HandedOverPlaces(s: State, s': State, a: Activity, op: OpId)
    requires Places(s) && HandsOver(s, s', a, op)
    ensures Is(s.h.place, op, Local(a)) && Places(s')
  {
    hide Ledger, Sits, NoRepeats;
    HeldIsPlaced(s, a);
    HoldingsAfter(s, s', a);
    if s'.pcs[a] == Idle {
      LedgerRefuse(Holdings(s), s.inner.pending, s.h.place, a, op);
    } else if s'.pcs[a].Beginning? {
      LedgerQueue(Holdings(s), s.inner.pending, s.h.place, a, op);
    } else {
      LedgerRunNow(Holdings(s), s.inner.pending, s.h.place, a, op);
    }
  }

  lemma HandedOverOnly(s: State, s': State, a: Activity, op: OpId)
    requires s.h.place.Keys == s.status.Keys == s.slot.Keys == s.h.runs.Keys == s.h.settled.Keys && op in s.h.place
    requires HandsOver(s, s', a, op)
    ensures OnlyOp(s, s', op) && Moved(s, s', a)
  {}

  lemma HandedOverTally(s: State, s': State, a: Activity, op: OpId)
    requires HandsOver(s, s', a, op) && op in s.h.runs && op in s.h.settled && op in s.status && op in s.slot
    requires Tally(Local(a), s.h.runs[op], s.h.settled[op], s.status[op], s.slot[op])
    ensures op in s'.h.place && Decided(s', s'.pcs[a])
    ensures Tally(s'.h.place[op], s'.h.runs[op], s'.h.settled[op], s'.status[op], s'.slot[op])
  {}

  /** The activity handed its operation over: to be run, to nobody, or to the queue. */
  lemma HandedOver(s: State, s': State, a: Activity, op: OpId)
    requires Ops(s) && HandsOver(s, s', a, op)
    ensures Ops(s')
  {
    hide Ledger, Outcomes, HandsOver, OnlyOp, Decided;
    HandedOverPlaces(s, s', a, op);
    assert Tally(s.h.place[op], s.h.runs[op], s.h.settled[op], s.status[op], s.slot[op]);
    HandedOverOnly(s, s', a, op);
    HandedOverTally(s, s', a, op);
    OpsOne(s, s', a, op);
  }

  /** The activity's part in a drain, if any, did not change. */
  lemma DrainKept(s: State, s': State, a: Activity)
    requires OneDrain(s) && Moved(s, s', a)
    requires s'.pcs[a].InDrain() == s.Pc(a).InDrain() && s'.pcs[a].Swapped() == s.Pc(a).Swapped()
    requires s'.inner.drain == s.inner.drain && s'.h.drainer == s.h.drainer && s'.h.swaps == s.h.swaps
    requires s'.h.lateWhileWaiting == s.h.lateWhileWaiting
    ensures OneDrain(s')
  {}

  lemma OrderKept(s: State, s': State, a: Activity)
    requires OneDrain(s) && InOrder(s) && Moved(s, s', a) && !s.h.dropped && !s'.h.dropped
    requires s'.pcs[a].DrainHolds() == s.Pc(a).DrainHolds()
    requires s'.h.drainer == s.h.drainer && s'.h.swaps == s.h.swaps && s'.inner.pending == s.inner.pending
    requires s'.h.enqueued == s.h.enqueued && s'.h.drained == s.h.drained
    requires s'.h.enqueuedAfterSwap == s.h.enqueuedAfterSwap && s'.h.discarded == s.h.discarded
    ensures InOrder(s')
  {}

  lemma LoaderKept(s: State, s': State, a: Activity)
    requires LoaderFirst(s) && Moved(s, s', a) && s'.h.swaps == s.h.swaps
    requires s.inner.default.Some? ==> s'.inner.default.Some?
    requires s'.pcs[a].NeedsLoader() ==> s.Pc(a).NeedsLoader() || s'.inner.default.Some?
    ensures LoaderFirst(s')
  {}

  /** Activity `a` moved on, its part in a drain unchanged and the queue as it was; a default is not lost. */
  ghost predicate Framed(s: State, s': State, a: Activity) {
    && Moved(s, s', a) && !s.h.dropped && !s'.h.dropped
    && s'.pcs[a].InDrain() == s.Pc(a).InDrain() && s'.pcs[a].Swapped() == s.Pc(a).Swapped()
    && s'.pcs[a].DrainHolds() == s.Pc(a).DrainHolds()
    && (s'.pcs[a].NeedsLoader() ==> s.Pc(a).NeedsLoader() || s'.inner.default.Some?)
    && (s.inner.default.Some? ==> s'.inner.default.Some?)
    && s'.inner.drain == s.inner.drain && s'.inner.pending == s.inner.pending
    && s'.h.drainer == s.h.drainer && s'.h.swaps == s.h.swaps && s'.h.lateWhileWaiting == s.h.lateWhileWaiting
    && s'.h.enqueued == s.h.enqueued && s'.h.drained == s.h.drained
    && s'.h.enqueuedAfterSwap == s.h.enqueuedAfterSwap && s'.h.discarded == s.h.discarded
  }

  lemma FramedKeeps(s: State, s': State, a: Activity)
    requires OneDrain(s) && LoaderFirst(s) && InOrder(s) && Framed(s, s', a)
    ensures OneDrain(s') && LoaderFirst(s') && InOrder(s')
  {
    hide OneDrain, LoaderFirst, InOrder;
    DrainKept(s, s', a);
    OrderKept(s, s', a);
    LoaderKept(s, s', a);
  }

  lemma StartPlaces(s: State, s': State, a: Activity, op: OpId)
    requires Places(s) && StepStartPerform(s, a, op) == Some(s')
    ensures op !in s.h.place && Places(s')
  {
    hide Sits, Mine, NoRepeats, Ledger;
    HeldIsPlaced(s, a);
    HoldingsAfter(s, s', a);
    LedgerAdd(Holdings(s), s.inner.pending, s.h.place, a, op);
  }

  lemma StartKeys(s: State, s': State, a: Activity, op: OpId)
    requires s.h.place.Keys == s.status.Keys == s.slot.Keys == s.h.runs.Keys == s.h.settled.Keys
    requires StepStartPerform(s, a, op) == Some(s')
    ensures op !in s.h.place
    ensures s'.h.place.Keys == s.h.place.Keys + {op}
    ensures s'.h.place.Keys == s'.status.Keys == s'.slot.Keys == s'.h.runs.Keys == s'.h.settled.Keys
  {}

  lemma StartOnly(s: State, s': State, a: Activity, op: OpId)
    requires s.h.place.Keys == s.status.Keys == s.slot.Keys == s.h.runs.Keys == s.h.settled.Keys
    requires StepStartPerform(s, a, op) == Some(s')
    ensures OnlyOp(s, s', op) && op !in s.h.place
  {
    StartKeys(s, s', a, op);
  }

  lemma StartOps(s: State, s': State, a: Activity, op: OpId)
    requires Ops(s) && StepStartPerform(s, a, op) == Some(s')
    ensures Ops(s')
  {
    hide Ledger, OnlyOp, Tallies, Outcomes;
    StartPlaces(s, s', a, op);
    StartOnly(s, s', a, op);
    OpsOne(s, s', a, op);
  }

  lemma KeepStartPerform(s: State, a: Activity, op: OpId)
    requires Inv(s) && !s.h.dropped && StepStartPerform(s, a, op).Some?
    ensures Inv(StepStartPerform(s, a, op).value)
  {
    hide Ops, OneDrain, LoaderFirst, InOrder;
    var s' := StepStartPerform(s, a, op).value;
    StartOps(s, s', a, op);
    FramedKeeps(s, s', a);
  }

  lemma CheckOps(s: State, s': State, a: Activity)
    requires Ops(s) && StepCheck(s, a) == Some(s')
    ensures Ops(s')
  {
    hide Ops;
    if s.inner.default.Some? {
      HandedOver(s, s', a, s.Pc(a).op);
    } else {
      HoldingKept(s, s', a);
    }
  }

  lemma CheckFrame(s: State, s': State, a: Activity)
    requires !s.h.dropped && StepCheck(s, a) == Some(s')
    ensures Framed(s, s', a)
  {
    if s.inner.default.Some? {
    }
  }

  lemma KeepCheck(s: State, a: Activity)
    requires Inv(s) && !s.h.dropped && StepCheck(s, a).Some?
    ensures Inv(StepCheck(s, a).value)
  {
    hide Ops, OneDrain, LoaderFirst, InOrder, Framed;
    var s' := StepCheck(s, a).value;
    CheckOps(s, s', a);
    CheckFrame(s, s', a);
    FramedKeeps(s, s', a);
  }

  lemma LocateOps(s: State, s': State, a: Activity, located: Located)
    requires Ops(s) && StepLocate(s, a, located) == Some(s')
    ensures Ops(s')
  {
    hide Ops;
    if located.OtherError? {
      HandedOver(s, s', a, s.Pc(a).op);
    } else {
      HoldingKept(s, s', a);
    }
  }

  lemma KeepLocate(s: State, a: Activity, located: Located)
    requires Inv(s) && !s.h.dropped && StepLocate(s, a, located).Some?
    ensures Inv(StepLocate(s, a, located).value)
  {
    hide Ops, OneDrain, LoaderFirst, InOrder;
    var s' := StepLocate(s, a, located).value;
    LocateOps(s, s', a, located);
    FramedKeeps(s, s', a);
  }

  lemma PublishOps(s: State, s': State, a: Activity, ok: bool)
    requires Ops(s) && StepPublish(s, a, ok) == Some(s')
    ensures Ops(s')
  {
    hide Ops;
    if s.Pc(a).Publishing? {
      HandedOver(s, s', a, s.Pc(a).op);
    } else {
      HoldingKept(s, s', a);
    }
  }

  lemma PublishFrame(s: State, s': State, a: Activity, ok: bool)
    requires !s.h.dropped && StepPublish(s, a, ok) == Some(s') && s.Pc(a).Publishing?
    ensures Framed(s, s', a)
  {}

  lemma DrainPublishFrame(s: State, s': State, a: Activity, ok: bool)
    requires !s.h.dropped && StepPublish(s, a, ok) == Some(s') && s.Pc(a).DrainPublishing?
    ensures Framed(s, s', a)
  {}

  lemma KeepPublish(s: State, a: Activity, ok: bool)
    requires Inv(s) && !s.h.dropped && StepPublish(s, a, ok).Some?
    ensures Inv(StepPublish(s, a, ok).value)
  {
    hide Ops, OneDrain, LoaderFirst, InOrder, Framed;
    var s' := StepPublish(s, a, ok).value;
    PublishOps(s, s', a, ok);
    if s.Pc(a).Publishing? {
      PublishFrame(s, s', a, ok);
    } else {
      DrainPublishFrame(s, s', a, ok);
    }
    FramedKeeps(s, s', a);
  }

  lemma HookOps(s: State, s': State, a: Activity, installed: Hooks)
    requires Ops(s) && StepEnsureHook(s, a, installed) == Some(s')
    ensures Ops(s')
  {
    hide Ops;
    if s'.inner.hooks.Some? {
      HoldingKept(s, s', a);
    } else {
      HandedOver(s, s', a, s.Pc(a).op);
    }
  }

  lemma KeepEnsureHook(s: State, a: Activity, installed: Hooks)
    requires Inv(s) && !s.h.dropped && StepEnsureHook(s, a, installed).Some?
    ensures Inv(StepEnsureHook(s, a, installed).value)
  {
    hide Ops, OneDrain, LoaderFirst, InOrder;
    var s' := StepEnsureHook(s, a, installed).value;
    HookOps(s, s', a, installed);
    FramedKeeps(s, s', a);
  }

  lemma EnqueueDrain(s: State, s': State, a: Activity)
    requires OneDrain(s) && LoaderFirst(s) && InOrder(s) && !s.h.dropped && StepEnqueue(s, a) == Some(s')
    ensures OneDrain(s') && LoaderFirst(s') && InOrder(s')
  {
    DrainKept(s, s', a);
    LoaderKept(s, s', a);
  }

  lemma KeepEnqueue(s: State, a: Activity)
    requires Inv(s) && !s.h.dropped && StepEnqueue(s, a).Some?
    ensures Inv(StepEnqueue(s, a).value)
  {
    hide Ops, OneDrain, LoaderFirst, InOrder;
    HandedOver(s, StepEnqueue(s, a).value, a, s.Pc(a).op);
    EnqueueDrain(s, StepEnqueue(s, a).value, a);
  }

  lemma KeepWaitHook(s: State, a: Activity, installed: Hooks)
    requires Inv(s) && !s.h.dropped && StepWaitHook(s, a, installed).Some?
    ensures Inv(StepWaitHook(s, a, installed).value)
  {
    hide Ops, OneDrain, LoaderFirst, InOrder;
    var s' := StepWaitHook(s, a, installed).value;
    HoldingKept(s, s', a);
    FramedKeeps(s, s', a);
  }

  lemma KeepHookFires(s: State, a: Activity, source: Source)
    requires Inv(s) && !s.h.dropped && StepHookFires(s, a, source).Some?
    ensures Inv(StepHookFires(s, a, source).value)
  {
    hide Ops, OneDrain, LoaderFirst, InOrder;
    var s' := StepHookFires(s, a, source).value;
    HoldingKept(s, s', a);
    FramedKeeps(s, s', a);
  }

  lemma BeginRefused(s: State, s': State, a: Activity)
    requires OneDrain(s) && InOrder(s) && !s.h.dropped && StepBegin(s, a) == Some(s')
    requires !s.inner.drain.CanBegin(s.Pc(a).source)
    ensures OneDrain(s') && InOrder(s')
  {
    hide OneDrain, InOrder;
    DrainKept(s, s', a);
    OrderKept(s, s', a);
  }

  lemma BeginAccepted(s: State, s': State, a: Activity)
    requires OneDrain(s) && InOrder(s) && !s.h.dropped && StepBegin(s, a) == Some(s')
    requires s.inner.drain.CanBegin(s.Pc(a).source)
    ensures OneDrain(s') && InOrder(s')
  {}

  lemma BeginDrain(s: State, s': State, a: Activity)
    requires OneDrain(s) && InOrder(s) && !s.h.dropped && StepBegin(s, a) == Some(s')
    ensures OneDrain(s') && InOrder(s')
  {
    hide OneDrain, InOrder;
    if s.inner.drain.CanBegin(s.Pc(a).source) {
      BeginAccepted(s, s', a);
    } else {
      BeginRefused(s, s', a);
    }
  }

  lemma BeginLoader(s: State, s': State, a: Activity)
    requires LoaderFirst(s) && StepBegin(s, a) == Some(s')
    ensures LoaderFirst(s')
  {
    hide LoaderFirst;
    LoaderKept(s, s', a);
  }

  /** Whether it begins or not, the activity holds nothing. */
  lemma BeginHoldsNothing(s: State, s': State, a: Activity)
    requires StepBegin(s, a) == Some(s')
    ensures Moved(s, s', a) && s'.pcs[a].Held() == s.Pc(a).Held() == NOTHING && !s'.pcs[a].Settling?
    ensures s'.status == s.status && s'.slot == s.slot && s'.h.runs == s.h.runs && s'.h.settled == s.h.settled
    ensures s'.h.place == s.h.place && s'.inner.pending == s.inner.pending
  {}

  lemma BeginOps(s: State, s': State, a: Activity)
    requires Ops(s) && StepBegin(s, a) == Some(s')
    ensures Ops(s')
  {
    hide Ops, StepBegin, Moved;
    BeginHoldsNothing(s, s', a);
    HoldingKept(s, s', a);
  }

  lemma KeepBegin(s: State, a: Activity)
    requires Inv(s) && !s.h.dropped && StepBegin(s, a).Some?
    ensures Inv(StepBegin(s, a).value)
  {
    hide Ops, OneDrain, LoaderFirst, InOrder;
    var s' := StepBegin(s, a).value;
    BeginOps(s, s', a);
    BeginLoader(s, s', a);
    BeginDrain(s, s', a);
  }

  lemma KeepProbe(s: State, a: Activity, found: Option<Loader>)
    requires Inv(s) && !s.h.dropped && StepProbe(s, a, found).Some?
    ensures Inv(StepProbe(s, a, found).value)
  {
    hide Ops, OneDrain, LoaderFirst, InOrder;
    var s' := StepProbe(s, a, found).value;
    HoldingKept(s, s', a);
    FramedKeeps(s, s', a);
  }

  lemma SwapPlaces(s: State, s': State, a: Activity)
    requires Places(s) && StepSwap(s, a) == Some(s')
    ensures Places(s')
  {
    hide Sits, Mine, NoRepeats, Ledger;
    HeldIsPlaced(s, a);
    HoldingsAfter(s, s', a);
    LedgerSwap(Holdings(s), s.inner.pending, s.h.place, a);
  }

  lemma SwapTallies(s: State, s': State, a: Activity)
    requires Places(s) && Tallies(s) && StepSwap(s, a) == Some(s')
    ensures s'.h.place.Keys == s.h.place.Keys && Tallies(s')
  {
    hide Ledger;
  }

  lemma SwapOutcomes(s: State, s': State, a: Activity)
    requires Outcomes(s) && StepSwap(s, a) == Some(s')
    ensures Outcomes(s')
  {}

  lemma SwapDrain(s: State, s': State, a: Activity)
    requires OneDrain(s) && LoaderFirst(s) && InOrder(s) && !s.h.dropped && StepSwap(s, a) == Some(s')
    ensures OneDrain(s') && LoaderFirst(s') && InOrder(s')
  {}

  lemma KeepSwap(s: State, a: Activity)
    requires Inv(s) && !s.h.dropped && StepSwap(s, a).Some?
    ensures Inv(StepSwap(s, a).value)
  {
    hide OneDrain, LoaderFirst, InOrder, Ledger, Tallies, Outcomes;
    var s' := StepSwap(s, a).value;
    SwapPlaces(s, s', a);
    SwapTallies(s, s', a);
    SwapOutcomes(s, s', a);
    SwapDrain(s, s', a);
  }

  lemma PopPlaces(s: State, s': State, a: Activity, op: OpId)
    requires Places(s) && StepPop(s, a) == Some(s') && s.Pc(a).batch != [] && op == s.Pc(a).batch[0]
    ensures Is(s.h.place, op, Batched(a)) && Places(s')
  {
    hide Ledger, Sits;
    HeldIsPlaced(s, a);
    assert Is(s.h.place, op, Batched(a));
    HoldingsAfter(s, s', a);
    LedgerPop(Holdings(s), s.inner.pending, s.h.place, a, s.Pc(a).batch);
  }

  lemma PopOps(s: State, s': State, a: Activity, op: OpId)
    requires Ops(s) && StepPop(s, a) == Some(s') && s.Pc(a).batch != [] && op == s.Pc(a).batch[0]
    ensures Ops(s')
  {
    hide Ledger;
    PopPlaces(s, s', a, op);
    assert Tally(s.h.place[op], s.h.runs[op], s.h.settled[op], s.status[op], s.slot[op]);
    OpsOne(s, s', a, op);
  }

  lemma PopFrame(s: State, s': State, a: Activity)
    requires !s.h.dropped && StepPop(s, a) == Some(s')
    ensures Framed(s, s', a)
  {
    var batch := s.Pc(a).batch;
    if batch != [] {
      assert batch == [batch[0]] + batch[1..];
    }
  }

  lemma KeepPop(s: State, a: Activity)
    requires Inv(s) && !s.h.dropped && StepPop(s, a).Some?
    ensures Inv(StepPop(s, a).value)
  {
    hide Ops, OneDrain, LoaderFirst, InOrder, Framed;
    var s' := StepPop(s, a).value;
    var batch := s.Pc(a).batch;
    if batch == [] {
      HoldingKept(s, s', a);
    } else {
      PopOps(s, s', a, batch[0]);
    }
    PopFrame(s, s', a);
    FramedKeeps(s, s', a);
  }

  /** The counts and values may change, but no operation appears or disappears. */
  ghost predicate SameDomain(s: State, s': State) {
    && s'.status.Keys == s.status.Keys && s'.slot.Keys == s.slot.Keys
    && s'.h.runs.Keys == s.h.runs.Keys && s'.h.settled.Keys == s.h.settled.Keys
  }

  lemma RunPlaces(s: State, s': State, a: Activity, op: OpId)
    requires Places(s) && Moved(s, s', a) && SameDomain(s, s')
    requires s.Pc(a).Running? && s.Pc(a).op == op
    requires s'.pcs[a].Settling? && s'.pcs[a].op == op && s'.pcs[a].next == s.Pc(a).next
    requires s'.h.place == s.h.place[op := RanIn(a)] && s'.inner.pending == s.inner.pending
    ensures Is(s.h.place, op, RunningIn(a)) && Places(s')
  {
    hide Ledger, Sits, NoRepeats;
    HeldIsPlaced(s, a);
    HoldingsAfter(s, s', a);
    LedgerRan(Holdings(s), s.inner.pending, s.h.place, a, op, s.Pc(a).next.Rest());
  }

  lemma RunOnly(s: State, s': State, a: Activity, op: OpId, outcome: Outcome)
    requires s.h.place.Keys == s.status.Keys == s.slot.Keys == s.h.runs.Keys == s.h.settled.Keys
    requires StepRun(s, a, outcome) == Some(s') && s.Pc(a).op == op && op in s.h.place
    ensures OnlyOp(s, s', op) && Moved(s, s', a) && SameDomain(s, s')
  {}

  lemma RunTally(s: State, s': State, a: Activity, op: OpId, outcome: Outcome)
    requires StepRun(s, a, outcome) == Some(s') && s.Pc(a).op == op
    requires op in s.h.settled && op in s.status
    requires Tally(RunningIn(a), s.h.runs[op], s.h.settled[op], s.status[op], s.slot[op])
    ensures op in s'.h.place && op in s'.h.runs && op in s'.h.settled && op in s'.status && op in s'.slot
    ensures Tally(s'.h.place[op], s'.h.runs[op], s'.h.settled[op], s'.status[op], s'.slot[op])
    ensures Decided(s', s'.pcs[a])
  {}

  lemma RunOps(s: State, s': State, a: Activity, op: OpId, outcome: Outcome)
    requires Ops(s) && StepRun(s, a, outcome) == Some(s') && s.Pc(a).op == op
    ensures Ops(s')
  {
    hide Ledger, Tally, Decided, OnlyOp, Tallies, Outcomes;
    HeldFacts(s, a, op);
    RunOnly(s, s', a, op, outcome);
    RunTally(s, s', a, op, outcome);
    RunPlaces(s, s', a, op);
    OpsOne(s, s', a, op);
  }

  lemma KeepRun(s: State, a: Activity, outcome: Outcome)
    requires Inv(s) && !s.h.dropped && StepRun(s, a, outcome).Some?
    ensures Inv(StepRun(s, a, outcome).value)
  {
    hide Ops, OneDrain, LoaderFirst, InOrder;
    var s' := StepRun(s, a, outcome).value;
    RunOps(s, s', a, s.Pc(a).op, outcome);
    RunDrain(s, s', a, outcome);
  }

  lemma RunDrain(s: State, s': State, a: Activity, outcome: Outcome)
    requires OneDrain(s) && LoaderFirst(s) && InOrder(s) && !s.h.dropped && StepRun(s, a, outcome) == Some(s')
    ensures OneDrain(s') && LoaderFirst(s') && InOrder(s')
  {}

  lemma SettlePlaces(s: State, s': State, a: Activity, op: OpId)
    requires Places(s) && Moved(s, s', a) && SameDomain(s, s')
    requires s.Pc(a).Settling? && s.Pc(a).op == op
    requires s'.pcs[a].Held() == NOTHING.(batch := s.Pc(a).next.Rest())
    requires s'.h.place == s.h.place[op := Finished] && s'.inner.pending == s.inner.pending
    ensures Is(s.h.place, op, RanIn(a)) && Places(s')
  {
    hide Ledger, Sits, NoRepeats;
    HeldIsPlaced(s, a);
    HoldingsAfter(s, s', a);
    LedgerSettled(Holdings(s), s.inner.pending, s.h.place, a, op, s.Pc(a).next.Rest());
  }

  lemma SettleOnly(s: State, s': State, a: Activity, op: OpId)
    requires s.h.place.Keys == s.status.Keys == s.slot.Keys == s.h.runs.Keys == s.h.settled.Keys
    requires StepSettle(s, a) == Some(s') && s.Pc(a).op == op && op in s.h.place
    ensures OnlyOp(s, s', op) && Moved(s, s', a) && SameDomain(s, s')
  {}

  lemma SettleTally(s: State, s': State, a: Activity, op: OpId)
    requires StepSettle(s, a) == Some(s') && s.Pc(a).op == op
    requires op in s.h.runs && op in s.status && op in s.slot
    requires Tally(RanIn(a), s.h.runs[op], s.h.settled[op], s.status[op], s.slot[op]) && Decided(s, s.Pc(a))
    ensures op in s'.h.place && op in s'.h.runs && op in s'.h.settled && op in s'.status && op in s'.slot
    ensures Tally(s'.h.place[op], s'.h.runs[op], s'.h.settled[op], s'.status[op], s'.slot[op])
    ensures Decided(s', s'.pcs[a])
  {}

  lemma SettleOps(s: State, s': State, a: Activity, op: OpId)
    requires Ops(s) && StepSettle(s, a) == Some(s') && s.Pc(a).op == op
    ensures Ops(s')
  {
    hide Ledger, Tally, Decided, OnlyOp, Tallies, Outcomes;
    HeldFacts(s, a, op);
    SettleOnly(s, s', a, op);
    SettleTally(s, s', a, op);
    SettlePlaces(s, s', a, op);
    OpsOne(s, s', a, op);
  }

  lemma KeepSettle(s: State, a: Activity)
    requires Inv(s) && !s.h.dropped && StepSettle(s, a).Some?
    ensures Inv(StepSettle(s, a).value)
  {
    hide Ops, OneDrain, LoaderFirst, InOrder;
    var s' := StepSettle(s, a).value;
    SettleOps(s, s', a, s.Pc(a).op);
    SettleDrain(s, s', a);
  }

  lemma OneSettled(a: seq<OpId>, op: OpId, rest: seq<OpId>, c: seq<OpId>, d: seq<OpId>)
    ensures a + ([op] + rest) + c + d == (a + [op]) + rest + c + d
  {
    assert a + ([op] + rest) == (a + [op]) + rest;
  }

  /** The drain's own operation settled: it moves from held to drained. */
  lemma SettleInOrder(s: State, s': State, a: Activity)
    requires OneDrain(s) && InOrder(s) && !s.h.dropped && StepSettle(s, a) == Some(s') && s.Pc(a).next.Resume?
    ensures InOrder(s')
  {
    var op, rest := s.Pc(a).op, s.Pc(a).next.batch;
    assert InFlight(s) == [op] + rest && InFlight(s') == rest;
    OneSettled(s.h.drained, op, rest, s.h.discarded, s.inner.pending);
  }

  lemma SettleDrain(s: State, s': State, a: Activity)
    requires OneDrain(s) && LoaderFirst(s) && InOrder(s) && !s.h.dropped && StepSettle(s, a) == Some(s')
    ensures OneDrain(s') && LoaderFirst(s') && InOrder(s')
  {
    hide OneDrain, LoaderFirst, InOrder;
    DrainKept(s, s', a);
    LoaderKept(s, s', a);
    if s.Pc(a).next.Return? {
      OrderKept(s, s', a);
    } else {
      SettleInOrder(s, s', a);
    }
  }

  lemma FinishDrain(s: State, s': State, a: Activity)
    requires OneDrain(s) && InOrder(s) && !s.h.dropped && StepFinish(s, a) == Some(s')
    ensures OneDrain(s') && InOrder(s')
  {}

  lemma KeepFinish(s: State, a: Activity)
    requires Inv(s) && !s.h.dropped && StepFinish(s, a).Some?
    ensures Inv(StepFinish(s, a).value)
  {
    hide Ops, OneDrain, LoaderFirst, InOrder;
    var s' := StepFinish(s, a).value;
    HoldingKept(s, s', a);
    LoaderKept(s, s', a);
    FinishDrain(s, s', a);
  }

  lemma KeepLateSignal(s: State)
    requires Inv(s) && !s.h.dropped && StepLateSignal(s).Some?
    ensures Inv(StepLateSignal(s).value)
  {}

  lemma KeepPublishForWait(s: State, loader: Loader)
    requires Inv(s) && !s.h.dropped
    ensures Inv(s.(inner := s.inner.Publish(loader)))
  {}

  lemma TakeResultOps(s: State, s': State, op: OpId)
    requires Ops(s) && StepTakeResult(s, op) == Some(s')
    ensures Ops(s')
  {}

  lemma KeepTakeResult(s: State, op: OpId)
    requires Inv(s) && !s.h.dropped && StepTakeResult(s, op).Some?
    ensures Inv(StepTakeResult(s, op).value)
  {
    hide Ops;
    TakeResultOps(s, StepTakeResult(s, op).value, op);
  }

  /** The queue and the place map agree on who is queued. */
  lemma QueuedIsPending(hold: map<Activity, Holding>, pending: seq<OpId>, place: map<OpId, Place>, op: OpId)
    requires Ledger(hold, pending, place) && op in place
    ensures op in pending <==> place[op] == Queued
  {
    assert Sits(hold, pending, op, place[op]);
    assert op in pending ==> Is(place, op, Queued);
  }

  lemma DropTally(s: State, s': State, op: OpId)
    requires op in s.h.place && op in s.h.runs && op in s.h.settled && op in s.status && op in s.slot
    requires Tally(s.h.place[op], s.h.runs[op], s.h.settled[op], s.status[op], s.slot[op])
    requires op in s.inner.pending <==> s.h.place[op] == Queued
    requires StepDrop(s) == Some(s')
    ensures op in s'.h.place && op in s'.h.runs && op in s'.h.settled && op in s'.status && op in s'.slot
    ensures Tally(s'.h.place[op], s'.h.runs[op], s'.h.settled[op], s'.status[op], s'.slot[op])
  {}

  lemma DropTallies(s: State, s': State)
    requires Ops(s) && StepDrop(s) == Some(s')
    ensures s'.h.place.Keys == s'.status.Keys == s'.slot.Keys == s'.h.runs.Keys == s'.h.settled.Keys == s.h.place.Keys
    ensures Tallies(s')
  {
    hide Ledger, Outcomes, Holdings, Tally;
    forall op | op in s.h.place
      ensures Tally(s'.h.place[op], s'.h.runs[op], s'.h.settled[op], s'.status[op], s'.slot[op])
    {
      QueuedIsPending(Holdings(s), s.inner.pending, s.h.place, op);
      DropTally(s, s', op);
    }
  }

  lemma DropOps(s: State, s': State)
    requires Ops(s) && StepDrop(s) == Some(s')
    ensures Ops(s')
  {
    hide Ledger, Tally;
    assert Holdings(s') == Holdings(s);
    LedgerDrop(Holdings(s), s.inner.pending, s.h.place);
    DropTallies(s, s');
  }

  lemma KeepDrop(s: State)
    requires Inv(s) && !s.h.dropped && StepDrop(s).Some?
    ensures Inv(StepDrop(s).value)
  {
    hide Ops;
    DropOps(s, StepDrop(s).value);
  }

  lemma KeepStep(s: State, e: Event)
    requires Inv(s) && Step(s, e).Some?
    ensures Inv(Step(s, e).value)
  {
    hide Inv, StepStartPerform, StepCheck, StepLocate, StepPublish, StepEnsureHook, StepEnqueue, StepWaitHook,
         StepHookFires, StepBegin, StepProbe, StepSwap, StepPop, StepRun, StepSettle, StepFinish, StepTakeResult,
         StepDrop;
    match e
    case StartPerform(a, op) => KeepStartPerform(s, a, op);
    case Check(a) => KeepCheck(s, a);
    case Locate(a, located) => KeepLocate(s, a, located);
    case Publish(a, ok) => KeepPublish(s, a, ok);
    case EnsureHook(a, installed) => KeepEnsureHook(s, a, installed);
    case Enqueue(a) => KeepEnqueue(s, a);
    case WaitHook(a, installed) => KeepWaitHook(s, a, installed);
    case HookFires(a, source) => KeepHookFires(s, a, source);
    case Begin(a) => KeepBegin(s, a);
    case Probe(a, found) => KeepProbe(s, a, found);
    case Swap(a) => KeepSwap(s, a);
    case Pop(a) => KeepPop(s, a);
    case Call(a, outcome) => KeepRun(s, a, outcome);
    case Settle(a) => KeepSettle(s, a);
    case Finish(a) => KeepFinish(s, a);
    case LateSignal => KeepLateSignal(s);
    case PublishForWait(loader) => KeepPublishForWait(s, loader);
    case TakeResult(op) => KeepTakeResult(s, op);
    case DropState => KeepDrop(s);
  }

  // ---------------------------------------------------------------------------
  // What holds in every run

  lemma {:induction false} RunKeepsInv(events: seq<Event>)
    requires Run(events).Some?
    ensures Inv(Run(events).value)
    decreases |events|
  {
    if events != [] {
      RunKeepsInv(events[..|events| - 1]);
      KeepStep(Run(events[..|events| - 1]).value, events[|events| - 1]);
    }
  }

  /** The state is Draining exactly while one activity is between its begin and its finish, and for its source. */
  lemma DrainingMeansOneDrainer(events: seq<Event>, a: Activity, b: Activity)
    requires Run(events).Some?
    ensures var s := Run(events).value;
            && (s.inner.drain.Draining? <==> exists d :: s.Pc(d).InDrain().Some?)
            && (s.Pc(a).InDrain().Some? ==> s.Pc(a).InDrain() == Some(s.inner.drain.source))
            && (s.Pc(a).InDrain().Some? && s.Pc(b).InDrain().Some? ==> a == b)
            && s.h.swaps <= 1
  {
    RunKeepsInv(events);
    var s := Run(events).value;
    if s.inner.drain.Draining? {
      assert s.Pc(s.h.drainer.value).InDrain().Some?;
    }
  }

  /** Each operation is in exactly one place, was run at most once, and its status was set exactly once by the end. */
  lemma OneFate(events: seq<Event>, op: OpId)
    requires Run(events).Some? && op in Run(events).value.status
    ensures var s := Run(events).value;
            && s.h.place.Keys == s.slot.Keys == s.h.runs.Keys == s.h.settled.Keys
            && op in s.h.place && Sits(Holdings(s), s.inner.pending, op, s.h.place[op])
            && (forall a <- s.pcs :: HoldsOp(s.pcs[a].Held(), op) ==> s.h.place[op] == PlaceIn(s.pcs[a].Held(), a, op))
            && (op in s.inner.pending ==> s.h.place[op] == Queued)
            && s.h.runs[op] <= 1 && s.h.settled[op] <= 1
            && (s.status[op] == Pending <==> s.h.settled[op] == 0)
            && (s.h.settled[op] == 1 <==> s.h.place[op] == Finished || s.h.place[op] == Discarded)
            && (s.status[op] == Completed ==> s.h.runs[op] == 1 && (s.slot[op] == HoldsOk || s.slot[op] == Taken))
  {
    RunKeepsInv(events);
    var s := Run(events).value;
    assert Tally(s.h.place[op], s.h.runs[op], s.h.settled[op], s.status[op], s.slot[op]);
    forall a | a in s.pcs && HoldsOp(s.pcs[a].Held(), op)
      ensures s.h.place[op] == PlaceIn(s.pcs[a].Held(), a, op)
    {
      HeldIsPlaced(s, a);
    }
  }

  ghost predicate HoldsOp(h: Holding, op: OpId) {
    h.local == Some(op) || h.running == Some(op) || h.ran == Some(op) || op in h.batch
  }

  ghost function PlaceIn(h: Holding, a: Activity, op: OpId): Place
    requires HoldsOp(h, op)
  {
    if h.local == Some(op) then Local(a)
    else if h.running == Some(op) then RunningIn(a)
    else if h.ran == Some(op) then RanIn(a)
    else Batched(a)
  }

  /** What the drain finished is a prefix of what was enqueued, in the order it was enqueued. */
  lemma DrainedInOrder(events: seq<Event>)
    requires Run(events).Some?
    ensures Run(events).value.h.drained <= Run(events).value.h.enqueued
  {
    RunKeepsInv(events);
    var s := Run(events).value;
    FirstOfFour(s.h.drained, InFlight(s), s.h.discarded, s.inner.pending);
  }

  lemma FirstOfFour(a: seq<OpId>, b: seq<OpId>, c: seq<OpId>, d: seq<OpId>)
    ensures a <= a + b + c + d
    ensures b == [] ==> a + b + c + d == a + (c + d)
    ensures c == [] || d == [] ==> c + d == d + c
  {}

  /** No callback runs before a default loader is published. */
  lemma CallbacksAfterPublish(events: seq<Event>, a: Activity)
    requires Run(events).Some? && Run(events).value.Pc(a).Running?
    ensures Run(events).value.inner.default.Some?
  {
    RunKeepsInv(events);
    var s := Run(events).value;
    assert a in s.pcs && s.pcs[a].NeedsLoader();
  }

  /** Once Initialized, always so and from the same source; a published default stays; a settled status stays. */
  lemma {:induction false} Forever(before: seq<Event>, after: seq<Event>)
    requires Run(before + after).Some?
    ensures Run(before).Some?
    ensures var s, t := Run(before).value, Run(before + after).value;
            && (s.inner.drain.Initialized? ==> t.inner.drain == s.inner.drain)
            && (s.inner.default.Some? ==> t.inner.default.Some?)
            && (s.h.lateWhileWaiting ==> t.h.lateWhileWaiting)
            && StatusKept(s, t)
    decreases |after|
  {
    if after == [] {
      assert before + after == before;
    } else {
      var e := after[|after| - 1];
      var prefix := after[..|after| - 1];
      assert (before + after)[..|before + after| - 1] == before + prefix;
      Forever(before, prefix);
      RunKeepsInv(before + prefix);
      StepForever(Run(before + prefix).value, e);
    }
  }

  lemma StepForever(s: State, e: Event)
    requires Inv(s) && Step(s, e).Some?
    ensures var t := Step(s, e).value;
            && (s.inner.drain.Initialized? ==> t.inner.drain == s.inner.drain)
            && (s.inner.default.Some? ==> t.inner.default.Some?)
            && (s.h.lateWhileWaiting ==> t.h.lateWhileWaiting)
            && StatusKept(s, t)
  {
    StepKeepsStatus(s, e);
    StepKeepsDrain(s, e);
  }

  /** The steps of a perform, as against those of a drain and the rest. */
  predicate OfPerform(e: Event) {
    e.StartPerform? || e.Check? || e.Locate? || e.Publish? || e.EnsureHook? || e.Enqueue? || e.WaitHook? || e.HookFires?
  }

  lemma LookupKeepsDrain(s: State, e: Event)
    requires Step(s, e).Some? && (e.StartPerform? || e.Check? || e.Locate? || e.Publish?)
    ensures Step(s, e).value.inner.drain == s.inner.drain && Step(s, e).value.h.lateWhileWaiting == s.h.lateWhileWaiting
    ensures s.inner.default.Some? ==> Step(s, e).value.inner.default.Some?
  {}

  lemma HookKeepsDrain(s: State, e: Event)
    requires Step(s, e).Some? && (e.EnsureHook? || e.Enqueue? || e.WaitHook? || e.HookFires?)
    ensures Step(s, e).value.inner.drain == s.inner.drain && Step(s, e).value.h.lateWhileWaiting == s.h.lateWhileWaiting
    ensures s.inner.default.Some? ==> Step(s, e).value.inner.default.Some?
  {}

  lemma PerformKeepsDrain(s: State, e: Event)
    requires Step(s, e).Some? && OfPerform(e)
    ensures Step(s, e).value.inner.drain == s.inner.drain && Step(s, e).value.h.lateWhileWaiting == s.h.lateWhileWaiting
    ensures s.inner.default.Some? ==> Step(s, e).value.inner.default.Some?
  {
    hide Step;
    if e.StartPerform? || e.Check? || e.Locate? || e.Publish? {
      LookupKeepsDrain(s, e);
    } else {
      HookKeepsDrain(s, e);
    }
  }

  lemma DrainKeepsDrain(s: State, e: Event)
    requires Step(s, e).Some? && !OfPerform(e)
    ensures s.inner.drain.Initialized? ==> Step(s, e).value.inner.drain == s.inner.drain
    ensures s.inner.default.Some? ==> Step(s, e).value.inner.default.Some?
    ensures s.h.lateWhileWaiting ==> Step(s, e).value.h.lateWhileWaiting
  {}

  lemma StepKeepsDrain(s: State, e: Event)
    requires Step(s, e).Some?
    ensures var t := Step(s, e).value;
            && (s.inner.drain.Initialized? ==> t.inner.drain == s.inner.drain)
            && (s.inner.default.Some? ==> t.inner.default.Some?)
            && (s.h.lateWhileWaiting ==> t.h.lateWhileWaiting)
  {
    hide Step;
    if OfPerform(e) {
      PerformKeepsDrain(s, e);
    } else {
      DrainKeepsDrain(s, e);
    }
  }

  lemma StepKeepsStatus(s: State, e: Event)
    requires Ops(s) && Step(s, e).Some?
    ensures StatusKept(s, Step(s, e).value)
  {
    match e
    case Settle(a) => SettleKeepsStatus(s, a);
    case DropState => DropKeepsStatus(s);
    case _ => OthersKeepStatus(s, e);
  }

  lemma OthersKeepStatus(s: State, e: Event)
    requires Step(s, e).Some? && !e.Settle? && !e.DropState?
    ensures StatusKept(s, Step(s, e).value)
  {}

  ghost predicate StatusKept(s: State, t: State) {
    forall op <- s.status :: op in t.status && (s.status[op] != Pending ==> t.status[op] == s.status[op])
  }

  lemma SettleKeepsStatus(s: State, a: Activity)
    requires Ops(s) && StepSettle(s, a).Some?
    ensures StatusKept(s, StepSettle(s, a).value)
  {
    HeldIsPlaced(s, a);
    SettlingIsPending(s, s.Pc(a).op, RanIn(a));
  }

  lemma DropKeepsStatus(s: State)
    requires Ops(s) && StepDrop(s).Some?
    ensures StatusKept(s, StepDrop(s).value)
  {}

  lemma SettlingIsPending(s: State, op: OpId, at: Place)
    requires Ops(s) && Is(s.h.place, op, at) && (at.RanIn? || at == Queued)
    ensures op in s.status && s.status[op] == Pending
  {}

  /** A LoadedApk drain begins exactly when the state is Waiting and no late signal ever came while it was Waiting. */
  lemma LoadedApkBeginsExactly(events: seq<Event>, a: Activity)
    requires Run(events).Some? && !Run(events).value.h.dropped
    requires Run(events).value.Pc(a) == Beginning(LoadedApk)
    ensures var s := Run(events).value;
            Run(events + [Begin(a)]).Some? &&
            (Run(events + [Begin(a)]).value.Pc(a).InDrain().Some? <==> s.inner.drain.Waiting? && !s.h.lateWhileWaiting)
  {
    hide Run, Ops, LoaderFirst, InOrder, Step;
    RunKeepsInv(events);
    RunSnoc(events, Begin(a));
    BeginsWhenAllowed(Run(events).value, a);
  }

  lemma BeginsWhenAllowed(s: State, a: Activity)
    requires !s.h.dropped && s.Pc(a) == Beginning(LoadedApk)
    ensures Step(s, Begin(a)).Some?
    ensures Step(s, Begin(a)).value.Pc(a).InDrain().Some? <==> s.inner.drain == Waiting(Early)
  {}

  lemma RunSnoc(events: seq<Event>, e: Event)
    requires Run(events).Some?
    ensures Run(events + [e]) == Step(Run(events).value, e)
  {
    hide Step;
    assert (events + [e])[..|events|] == events;
  }

  // ---------------------------------------------------------------------------
  // Which callbacks are left behind

  /** Once Initialized, the queue holds exactly the callbacks that were enqueued after the swap. */
  lemma LeftBehindExactly(events: seq<Event>)
    requires Run(events).Some? && Run(events).value.inner.drain.Initialized?
    ensures var s := Run(events).value;
            && s.inner.pending + s.h.discarded == s.h.enqueuedAfterSwap
            && s.h.enqueued == s.h.drained + s.h.enqueuedAfterSwap
  {
    RunKeepsInv(events);
    var s := Run(events).value;
    assert s.h.drainer.None?;
    FirstOfFour(s.h.drained, InFlight(s), s.h.discarded, s.inner.pending);
  }

  /** Every enqueue finds the check that led to it still true, as when both are one critical section. */
  ghost predicate Atomic(events: seq<Event>)
    requires Run(events).Some?
    decreases |events|
  {
    events != [] ==>
      var before := events[..|events| - 1];
      && Run(before).Some? && Atomic(before)
      && (events[|events| - 1].Enqueue? ==> Run(before).value.inner.default.None?)
  }

  /** With check and enqueue atomic, no callback is enqueued after the swap: Initialized means an empty queue. */
  lemma {:induction false} AtomicLeavesNobody(events: seq<Event>)
    requires Run(events).Some? && Atomic(events)
    ensures Run(events).value.h.enqueuedAfterSwap == []
    ensures Run(events).value.inner.drain.Initialized? ==>
              Run(events).value.inner.pending == [] && Run(events).value.h.drained == Run(events).value.h.enqueued
    decreases |events|
  {
    RunKeepsInv(events);
    if events != [] {
      var before := events[..|events| - 1];
      AtomicLeavesNobody(before);
      RunKeepsInv(before);
      AtomicStep(Run(before).value, events[|events| - 1]);
    }
    if Run(events).value.inner.drain.Initialized? {
      LeftBehindExactly(events);
      var s := Run(events).value;
      assert |s.inner.pending| + |s.h.discarded| == |s.h.enqueuedAfterSwap| == 0;
    }
  }

  lemma AtomicPerform(s: State, e: Event)
    requires s.h.swaps <= 1 && (s.h.swaps == 1 ==> s.inner.default.Some?) && s.h.enqueuedAfterSwap == []
    requires Step(s, e).Some? && OfPerform(e)
    requires e.Enqueue? ==> s.inner.default.None?
    ensures Step(s, e).value.h.enqueuedAfterSwap == []
  {}

  lemma AtomicStep(s: State, e: Event)
    requires s.h.swaps <= 1 && (s.h.swaps == 1 ==> s.inner.default.Some?) && s.h.enqueuedAfterSwap == []
    requires Step(s, e).Some?
    requires e.Enqueue? ==> s.inner.default.None?
    ensures Step(s, e).value.h.enqueuedAfterSwap == []
  {
    if OfPerform(e) {
      AtomicPerform(s, e);
    }
  }

  ghost predicate Reaches(events: seq<Event>, inner: Inner, pcs: map<Activity, Pc>) {
    && Run(events).Some? && !Run(events).value.h.dropped
    && Run(events).value.inner == inner && Run(events).value.pcs == pcs
  }

  const ALL_HOOKS := Hooks(true, true, true)

  /** A perform that found no loader has installed the hooks and is about to enqueue. */
  lemma CheckedTooEarly() returns (events: seq<Event>)
    ensures Reaches(events, Inner(None, [], Some(ALL_HOOKS), Waiting(Early)), map[0 := Enqueuing(7)])
    ensures Run(events).value.bindHooked
  {
    var e1 := [StartPerform(0, 7)];
    var e2 := e1 + [Check(0)];
    var e3 := e2 + [Locate(0, Unavailable)];
    events := e3 + [EnsureHook(0, ALL_HOOKS)];
    RunSnoc([], StartPerform(0, 7));
    RunSnoc(e1, Check(0));
    RunSnoc(e2, Locate(0, Unavailable));
    RunSnoc(e3, EnsureHook(0, ALL_HOOKS));
  }

  lemma ThenDraining() returns (events: seq<Event>)
    ensures Reaches(events, Inner(None, [], Some(ALL_HOOKS), Draining(Early, Application)),
                    map[0 := Enqueuing(7), 1 := Probing(Application)])
  {
    var e4 := CheckedTooEarly();
    var e5 := e4 + [HookFires(1, Application)];
    events := e5 + [Begin(1)];
    RunSnoc(e4, HookFires(1, Application));
    RunSnoc(e5, Begin(1));
  }

  lemma ThenPublished() returns (events: seq<Event>)
    ensures Reaches(events, Inner(Some(3), [], Some(ALL_HOOKS), Draining(Early, Application)),
                    map[0 := Enqueuing(7), 1 := Swapping(Application, 3)])
  {
    var e6 := ThenDraining();
    var e7 := e6 + [Probe(1, Some(3))];
    events := e7 + [Publish(1, true)];
    RunSnoc(e6, Probe(1, Some(3)));
    RunSnoc(e7, Publish(1, true));
  }

  lemma ThenDrained() returns (events: seq<Event>)
    ensures Reaches(events, Inner(Some(3), [], Some(ALL_HOOKS), Draining(Early, Application)),
                    map[0 := Enqueuing(7), 1 := Finishing(Application, true)])
  {
    var e8 := ThenPublished();
    var e9 := e8 + [Swap(1)];
    events := e9 + [Pop(1)];
    RunSnoc(e8, Swap(1));
    RunSnoc(e9, Pop(1));
  }

  /** Without it, a perform that checked before the publish can enqueue after the swap and be left behind. */
  lemma LeftBehindPossible() returns (events: seq<Event>)
    ensures Run(events).Some?
    ensures Run(events).value.inner.drain == Initialized(Application) && Run(events).value.inner.pending == [7]
  {
    var e10 := ThenDrained();
    var e11 := e10 + [Finish(1)];
    events := e11 + [Enqueue(0)];
    RunSnoc(e10, Finish(1));
    RunSnoc(e11, Enqueue(0));
  }

  /** Its operation is in the queue. */
  lemma Enqueued() returns (events: seq<Event>)
    ensures Reaches(events, Inner(None, [7], Some(ALL_HOOKS), Waiting(Early)), map[0 := Beginning(CurrentApplication)])
    ensures Run(events).value.bindHooked
  {
    var before := CheckedTooEarly();
    events := before + [Enqueue(0)];
    RunSnoc(before, Enqueue(0));
  }

  lemma OwnDrainBegun() returns (events: seq<Event>)
    ensures Reaches(events, Inner(None, [7], Some(ALL_HOOKS), Draining(Early, CurrentApplication)),
                    map[0 := Probing(CurrentApplication)])
    ensures Run(events).value.bindHooked
  {
    var before := Enqueued();
    events := before + [Begin(0)];
    RunSnoc(before, Begin(0));
  }

  /** The late signal of an instrumented start, arriving while a perform's own drain looks for the application. */
  lemma SignalledDuringDrain() returns (before: seq<Event>)
    ensures Reaches(before + [LateSignal] + [Probe(0, None)],
                    Inner(None, [7], Some(ALL_HOOKS), Draining(Early, CurrentApplication)),
                    map[0 := Finishing(CurrentApplication, false)])
  {
    before := OwnDrainBegun();
    RunSnoc(before, LateSignal);
    RunSnoc(before + [LateSignal], Probe(0, None));
  }

  /** The failed drain went back to waiting as if no signal had come. */
  lemma WaitingAgain() returns (before: seq<Event>)
    ensures Reaches(before + [LateSignal] + [Probe(0, None)] + [Finish(0)],
                    Inner(None, [7], Some(ALL_HOOKS), Waiting(Early)), map[0 := Idle])
  {
    before := SignalledDuringDrain();
    RunSnoc(before + [LateSignal] + [Probe(0, None)], Finish(0));
  }

  /** When that drain fails, the signal is lost: a LoadedApk drain begins all the same. */
  lemma LateSignalLost() returns (before: seq<Event>, after: seq<Event>)
    ensures Run(before + [LateSignal] + after).Some?
    ensures var s := Run(before + [LateSignal] + after).value;
            s.inner == Inner(None, [7], Some(ALL_HOOKS), Draining(Early, LoadedApk)) && s.Pc(1) == Probing(LoadedApk)
  {
    before := WaitingAgain();
    after := [Probe(0, None), Finish(0), HookFires(1, LoadedApk), Begin(1)];
    var e9 := before + [LateSignal] + [Probe(0, None)] + [Finish(0)];
    RunSnoc(e9, HookFires(1, LoadedApk));
    RunSnoc(e9 + [HookFires(1, LoadedApk)], Begin(1));
    assert before + [LateSignal] + after == e9 + [HookFires(1, LoadedApk)] + [Begin(1)];
  }
}
