/**
  Callbacks scheduled on Android's main thread (src/java/main_thread.rs): the queue, its drain from
  the poll hook, and what a run of schedules and drains executes.
*/
module MainThread {

  type TaskId = nat

  datatype Status = Pending | Completed | Failed

  /** One attempt to schedule: whether the hook is in place, and whether the looper could be woken. */
  datatype Attempt = Attempt(hookOk: bool, wakeOk: bool)

  /** What a callback does: the schedules it makes while it runs, and how it ends (a panic ends Failed). */
  datatype Effect = Effect(schedules: seq<Attempt>, ok: bool)

  type Script = TaskId -> Effect

  /** The scheduler's fields, then an observer's log: drained and executed tasks, and those whose wake succeeded. */
  datatype State = State(
    pending: seq<TaskId>, status: map<TaskId, Status>, next: TaskId,
    drained: seq<TaskId>, executed: seq<TaskId>, woken: set<TaskId>)

  const START := State([], map[], 0, [], [], {})

  // ---------------------------------------------------------------------------
  // The operations as functions on the state

  function ScheduleStep(s: State, attempt: Attempt): State {
    if !attempt.hookOk then s
    else s.(pending := s.pending + [s.next],
            status := s.status[s.next := if attempt.wakeOk then Pending else Failed],
            woken := if attempt.wakeOk then s.woken + {s.next} else s.woken,
            next := s.next + 1)
  }

  function Schedules(s: State, attempts: seq<Attempt>): State
    decreases |attempts|
  {
    if attempts == [] then s else Schedules(ScheduleStep(s, attempts[0]), attempts[1..])
  }

  function RunTask(s: State, script: Script, task: TaskId): State {
    var popped := s.(drained := s.drained + [task]);
    if task in s.status && s.status[task] != Pending then popped
    else
      var ran := Schedules(popped.(executed := s.executed + [task]), script(task).schedules);
      ran.(status := ran.status[task := if script(task).ok then Completed else Failed])
  }

  function RunBatch(s: State, script: Script, batch: seq<TaskId>): State
    decreases |batch|
  {
    if batch == [] then s else RunBatch(RunTask(s, script, batch[0]), script, batch[1..])
  }

  function DrainStep(s: State, script: Script): State {
    RunBatch(s.(pending := []), script, s.pending)
  }

  // ---------------------------------------------------------------------------
  // The scheduler

  class MainThreadState {
    const mainThreadId: nat
    var pending: seq<TaskId>
    var status: map<TaskId, Status>
    var next: TaskId
    ghost var drained: seq<TaskId>
    ghost var executed: seq<TaskId>
    ghost var woken: set<TaskId>

    ghost function View(): State
      reads this
    {
      State(pending, status, next, drained, executed, woken)
    }

    constructor (mainThreadId: nat)
      ensures View() == START && this.mainThreadId == mainThreadId
    {
      this.mainThreadId := mainThreadId;
      pending, status, next := [], map[], 0;
      drained, executed, woken := [], [], {};
    }

    /** Returns the handle, or nothing when the hook or the wake failed. */
    method Schedule(attempt: Attempt) returns (ok: bool, task: TaskId)
      modifies this
      ensures View() == ScheduleStep(old(View()), attempt)
      ensures ok == (attempt.hookOk && attempt.wakeOk) && (ok ==> task == old(next) && status[task] == Pending)
    {
      task := next;
      if !attempt.hookOk {
        return false, task;
      }
      status := status[task := Pending];
      pending := pending + [task];
      next := next + 1;
      if !attempt.wakeOk {
        status := status[task := Failed];
        return false, task;
      }
      woken := woken + {task};
      return true, task;
    }

    method Invoke(script: Script, task: TaskId)
      modifies this
      ensures View() == Schedules(old(View()), script(task).schedules)
    {
      var attempts := script(task).schedules;
      var k := 0;
      while k < |attempts|
        invariant 0 <= k <= |attempts|
        invariant Schedules(View(), attempts[k..]) == Schedules(old(View()), attempts)
      {
        assert attempts[k..][1..] == attempts[k + 1..];
        var _, _ := Schedule(attempts[k]);
        k := k + 1;
      }
    }

    method DrainIfMainThread(threadId: nat, script: Script)
      modifies this
      ensures View() == if threadId == mainThreadId then DrainStep(old(View()), script) else old(View())
    {
      if threadId != mainThreadId {
        return;
      }
      var batch := pending;
      pending := [];
      ghost var goal := DrainStep(old(View()), script);
      while batch != []
        invariant RunBatch(View(), script, batch) == goal
        decreases |batch|
      {
        var task := batch[0];
        batch := batch[1..];
        drained := drained + [task];
        if task in status && status[task] != Pending {
          continue;
        }
        executed := executed + [task];
        Invoke(script, task);
        status := status[task := if script(task).ok then Completed else Failed];
      }
    }
  }

  // ---------------------------------------------------------------------------
  // Runs

  datatype Event = Schedule(attempt: Attempt) | Drain(script: Script)

  function Run(events: seq<Event>): State {
    if events == [] then START
    else
      var s := Run(events[..|events| - 1]);
      match events[|events| - 1]
      case Schedule(attempt) => ScheduleStep(s, attempt)
      case Drain(script) => DrainStep(s, script)
  }

  function Filter(tasks: seq<TaskId>, keep: set<TaskId>): seq<TaskId> {
    if tasks == [] then []
    else Filter(tasks[..|tasks| - 1], keep) + (if tasks[|tasks| - 1] in keep then [tasks[|tasks| - 1]] else [])
  }

  function UpTo(n: nat): seq<TaskId> {
    seq(n, k => k)
  }

  /** `batch` is what the current drain has still to pop. */
  ghost predicate Inv(s: State, batch: seq<TaskId>) {
    && s.drained + batch + s.pending == UpTo(s.next)
    && s.executed == Filter(s.drained, s.woken)
    && (forall t: TaskId :: t in s.status <==> t < s.next)
    && (forall t <- s.woken :: t < s.next)
    && (forall t :: t in s.status ==>
          if t !in s.woken then s.status[t] == Failed
          else if t < |s.drained| then s.status[t] != Pending
          else s.status[t] == Pending)
  }

  lemma FilterSnoc(tasks: seq<TaskId>, t: TaskId, keep: set<TaskId>)
    ensures Filter(tasks + [t], keep) == Filter(tasks, keep) + (if t in keep then [t] else [])
  {}

  lemma {:induction false} FilterGrows(tasks: seq<TaskId>, t: TaskId, keep: set<TaskId>)
    requires t !in tasks
    ensures Filter(tasks, keep + {t}) == Filter(tasks, keep)
  {
    if tasks != [] {
      FilterGrows(tasks[..|tasks| - 1], t, keep);
      assert tasks[|tasks| - 1] in tasks;
    }
  }

  /** The k-th task ever enqueued is the one numbered k. */
  lemma Numbered(s: State, batch: seq<TaskId>)
    requires s.drained + batch + s.pending == UpTo(s.next)
    ensures forall k :: 0 <= k < |s.drained| ==> s.drained[k] == k
    ensures forall k :: 0 <= k < |batch| ==> batch[k] == |s.drained| + k
    ensures forall k :: 0 <= k < |s.pending| ==> s.pending[k] == |s.drained| + |batch| + k
    ensures |s.drained| + |batch| + |s.pending| == s.next
  {
    var all := s.drained + batch + s.pending;
    assert |all| == s.next;
    forall k | 0 <= k < |s.drained|
      ensures s.drained[k] == k
    {
      assert all[k] == s.drained[k];
    }
    forall k | 0 <= k < |batch|
      ensures batch[k] == |s.drained| + k
    {
      assert all[|s.drained| + k] == batch[k];
    }
    forall k | 0 <= k < |s.pending|
      ensures s.pending[k] == |s.drained| + |batch| + k
    {
      assert all[|s.drained| + |batch| + k] == s.pending[k];
    }
  }

  lemma ScheduleKeeps(s: State, batch: seq<TaskId>, attempt: Attempt)
    requires Inv(s, batch)
    ensures Inv(ScheduleStep(s, attempt), batch)
  {
    var s' := ScheduleStep(s, attempt);
    if attempt.hookOk {
      Numbered(s, batch);
      assert s'.drained + batch + s'.pending == s.drained + batch + s.pending + [s.next];
      assert UpTo(s.next) + [s.next] == UpTo(s'.next);
      FilterGrows(s.drained, s.next, s.woken);
    }
  }

  lemma {:induction false} SchedulesKeep(s: State, batch: seq<TaskId>, attempts: seq<Attempt>)
    requires Inv(s, batch)
    ensures var s' := Schedules(s, attempts);
            && Inv(s', batch) && s'.drained == s.drained && s'.executed == s.executed
            && (forall t :: t in s.status ==> t in s'.status && s'.status[t] == s.status[t])
            && (forall t :: t in s.status ==> (t in s'.woken <==> t in s.woken))
    decreases |attempts|
  {
    if attempts != [] {
      ScheduleKeeps(s, batch, attempts[0]);
      SchedulesKeep(ScheduleStep(s, attempts[0]), batch, attempts[1..]);
    }
  }

  /** The state while a popped task runs: nothing drained is Pending any more. */
  function Entered(s: State, task: TaskId): State {
    s.(drained := s.drained + [task], executed := s.executed + [task], status := s.status[task := Completed])
  }

  lemma PopKeeps(s: State, batch: seq<TaskId>)
    requires Inv(s, batch) && batch != []
    ensures batch[0] == |s.drained| && batch[0] in s.status
    ensures s.status[batch[0]] == Pending ==> batch[0] in s.woken && Inv(Entered(s, batch[0]), batch[1..])
    ensures s.status[batch[0]] != Pending ==> Inv(s.(drained := s.drained + [batch[0]]), batch[1..])
  {
    Numbered(s, batch);
    FilterSnoc(s.drained, batch[0], s.woken);
    assert s.drained + [batch[0]] + batch[1..] == s.drained + batch;
  }

  /** What running a pending task comes to. */
  lemma RunPending(s: State, script: Script, task: TaskId, final: Status)
    requires task < s.next && task in s.status && s.status[task] == Pending
    requires final == if script(task).ok then Completed else Failed
    ensures var ran := Schedules(Entered(s, task), script(task).schedules);
            RunTask(s, script, task) == ran.(status := ran.status[task := final])
  {
    var popped := s.(drained := s.drained + [task], executed := s.executed + [task]);
    SchedulesIgnoreStatus(popped, task, Completed, script(task).schedules);
    assert Entered(s, task) == popped.(status := popped.status[task := Completed]);
  }

  lemma RunTaskKeeps(s: State, script: Script, batch: seq<TaskId>)
    requires Inv(s, batch) && batch != []
    ensures Inv(RunTask(s, script, batch[0]), batch[1..])
    ensures RunTask(s, script, batch[0]).drained == s.drained + [batch[0]]
  {
    var task := batch[0];
    PopKeeps(s, batch);
    if s.status[task] == Pending {
      var final := if script(task).ok then Completed else Failed;
      RunPending(s, script, task, final);
      SchedulesKeep(Entered(s, task), batch[1..], script(task).schedules);
      Relabel(Schedules(Entered(s, task), script(task).schedules), batch[1..], task, final);
    }
  }

  lemma Relabel(s: State, batch: seq<TaskId>, task: TaskId, final: Status)
    requires Inv(s, batch) && task in s.woken && task < |s.drained| && final != Pending
    ensures Inv(s.(status := s.status[task := final]), batch)
  {}

  /** Scheduling neither reads nor changes the status of a task already known. */
  lemma {:induction false} SchedulesIgnoreStatus(s: State, task: TaskId, status: Status, attempts: seq<Attempt>)
    requires task < s.next
    ensures Schedules(s.(status := s.status[task := status]), attempts) ==
            Schedules(s, attempts).(status := Schedules(s, attempts).status[task := status])
    decreases |attempts|
  {
    if attempts != [] {
      var next := ScheduleStep(s, attempts[0]);
      assert ScheduleStep(s.(status := s.status[task := status]), attempts[0])
             == next.(status := next.status[task := status]);
      SchedulesIgnoreStatus(next, task, status, attempts[1..]);
    }
  }

  lemma {:induction false} RunBatchKeeps(s: State, script: Script, batch: seq<TaskId>)
    requires Inv(s, batch)
    ensures var s' := RunBatch(s, script, batch);
            Inv(s', []) && s'.drained == s.drained + batch
    decreases |batch|
  {
    if batch != [] {
      RunTaskKeeps(s, script, batch);
      RunBatchKeeps(RunTask(s, script, batch[0]), script, batch[1..]);
      assert s.drained + [batch[0]] + batch[1..] == s.drained + batch;
    }
  }

  lemma DrainKeeps(s: State, script: Script)
    requires Inv(s, [])
    ensures Inv(DrainStep(s, script), []) && DrainStep(s, script).drained == s.drained + s.pending
  {
    assert s.drained + s.pending + [] == s.drained + [] + s.pending;
    RunBatchKeeps(s.(pending := []), script, s.pending);
  }

  lemma {:induction false} RunKeeps(events: seq<Event>)
    ensures Inv(Run(events), [])
    decreases |events|
  {
    if events == [] {
      assert [] + [] + [] == UpTo(0);
    } else {
      RunKeeps(events[..|events| - 1]);
      match events[|events| - 1]
      case Schedule(attempt) => ScheduleKeeps(Run(events[..|events| - 1]), [], attempt);
      case Drain(script) => DrainKeeps(Run(events[..|events| - 1]), script);
    }
  }

  // ---------------------------------------------------------------------------
  // Main results, for every run

  /** What ran is exactly the drained tasks whose wake succeeded, in the order they were enqueued. */
  lemma ExecutedExactly(events: seq<Event>)
    ensures var s := Run(events);
            && s.executed == Filter(s.drained, s.woken)
            && s.drained + s.pending == UpTo(s.next)
  {
    RunKeeps(events);
    assert Run(events).drained + [] + Run(events).pending == Run(events).drained + Run(events).pending;
  }

  lemma {:induction false} FilterIncreasing(tasks: seq<TaskId>, keep: set<TaskId>)
    requires forall k :: 0 <= k < |tasks| ==> tasks[k] == k
    ensures forall t :: t in Filter(tasks, keep) <==> t in keep && t < |tasks|
    ensures forall i, j :: 0 <= i < j < |Filter(tasks, keep)| ==> Filter(tasks, keep)[i] < Filter(tasks, keep)[j]
    decreases |tasks|
  {
    if tasks != [] {
      var front := tasks[..|tasks| - 1];
      FilterIncreasing(front, keep);
      var f := Filter(front, keep);
      forall i | 0 <= i < |f|
        ensures f[i] < |front|
      {
        assert f[i] in f;
      }
    }
  }

  /** A task runs at most once; it has run exactly when it was drained and its wake succeeded; its status tells. */
  lemma OnceEach(events: seq<Event>, t: TaskId)
    requires t < Run(events).next
    ensures var s := Run(events);
            && (t in s.executed <==> t in s.woken && t < |s.drained|)
            && (forall i, j :: 0 <= i < j < |s.executed| ==> s.executed[i] != s.executed[j])
            && t in s.status
            && (t !in s.woken ==> s.status[t] == Failed)
            && (t in s.woken ==> (s.status[t] == Pending <==> t !in s.executed))
  {
    RunKeeps(events);
    var s := Run(events);
    Numbered(s, []);
    FilterIncreasing(s.drained, s.woken);
  }

  /** A drain takes exactly what was queued when it began; whatever its callbacks schedule waits for the next. */
  lemma ScheduledTasksWait(events: seq<Event>, script: Script)
    ensures var s, s' := Run(events), Run(events + [Drain(script)]);
            && s'.drained == s.drained + s.pending
            && s.next <= s'.next && s'.pending == UpTo(s'.next)[s.next..]
            && (forall t <- s'.executed :: t < s.next)
  {
    RunKeeps(events);
    RunKeeps(events + [Drain(script)]);
    assert (events + [Drain(script)])[..|events|] == events;
    var s, s' := Run(events), Run(events + [Drain(script)]);
    DrainKeeps(s, script);
    Numbered(s, []);
    Numbered(s', []);
    assert |s'.drained| == s.next;
    FilterIncreasing(s'.drained, s'.woken);
  }
}
