/**
 Work in flight is finite and, where the locks cannot deadlock, can always be
 driven to its end.
 */
module Progress {
  import opened Protocol
  import opened Invariant
  import opened Locks

  // ---------------------------------------------------------------------
  // Sums over threads
  // ---------------------------------------------------------------------

  ghost function Sum(m: map<Tid, nat>): nat {
    if m == map[] then 0
    else
      var t :| t in m;
      m[t] + Sum(m - {t})
  }

  lemma {:induction false} SumSplit(m: map<Tid, nat>, t: Tid)
    requires t in m
    ensures Sum(m) == m[t] + Sum(m - {t})
    decreases |m|
  {
    var u :| u in m && Sum(m) == m[u] + Sum(m - {u});
    if u != t {
      SumSplit(m - {u}, t);
      SumSplit(m - {t}, u);
      assert m - {u} - {t} == m - {t} - {u};
    }
  }

  lemma SumUpdate(m: map<Tid, nat>, t: Tid, n: nat)
    requires t in m
    ensures Sum(m[t := n]) == Sum(m) - m[t] + n
  {
    SumSplit(m, t);
    SumSplit(m[t := n], t);
    assert m[t := n] - {t} == m - {t};
  }

  // ---------------------------------------------------------------------
  // How far a thread is from its end
  // ---------------------------------------------------------------------

  // A pass does not know its loops until it has read the mapping.
  function Early(task: Task): nat {
    if task.PassBegin? || task.PassCloning? || task.PassCloned? then 1 else 0
  }

  function Remaining(task: Task): nat {
    match task
    case Done(_) => 0
    case ReadVersion(_) => 5
    case GotVersion(_, _) => 4
    case MapWant(_) => 3
    case MapQueued(_) => 2
    case MapHeld(_) => 1
    case CheckKey(_, ret) => AfterSync(ret) + 8
    case CheckedKey(_, ret, _) => AfterSync(ret) + 7
    case CliWant(job) => AfterJob(job) + 3
    case CliQueued(job) => AfterJob(job) + 2
    case CliHeld(job) => AfterJob(job) + 1
    case NotifyWant(_, ret) => AfterSync(ret) + 3
    case NotifyHeld(_, ret, _, _) => AfterSync(ret) + 2
    case Notified(_, ret, _, _) => AfterSync(ret) + 1
    case PassBegin => 3
    case PassCloning => 2
    case PassCloned(_, _) => 1
    case PassSyncing(p) => InLoops(p) + 1
    case PassRemoving(p) => 4 * |p.rest| + 1
    case QueryBegin(_) => 4
    case QueryMapped(_, _) => 3
    case QueryLooked(_, _, _, _) => 2
    case QueryReading(_, _, _, _) => 1
    case KeysBegin => 2
    case KeysHeld => 1
  }

  function InLoops(p: Pass): nat {
    9 * |p.todo| + 4 * |p.rest| + 1
  }

  function AfterSync(ret: Return): nat {
    if ret.ToInsert? then 3 else InLoops(ret.pass) + 1
  }

  function AfterJob(job: CliJob): nat {
    match job
    case Create(_, ret) => AfterSync(ret) + 3
    case Remove(_, p) => 4 * |p.rest| + 1
    case Nudge(_) => 0
  }

  ghost function EarlyMap(threads: map<Tid, Thread>): map<Tid, nat> {
    map t | t in threads :: Early(threads[t].task)
  }

  ghost function WorkMap(threads: map<Tid, Thread>): map<Tid, nat> {
    map t | t in threads :: Remaining(threads[t].task)
  }

  ghost predicate Shrinks(before: State, after: State) {
    || Sum(EarlyMap(after.threads)) < Sum(EarlyMap(before.threads))
    || (&& Sum(EarlyMap(after.threads)) == Sum(EarlyMap(before.threads))
        && Sum(WorkMap(after.threads)) < Sum(WorkMap(before.threads)))
  }

  lemma SyncingShrinks(cfg: Config, s: State, task: Task, ch: Choice)
    requires Ready(s, task, ch) && task.PassSyncing?
    ensures Early(NextTask(cfg, s, task, ch)) == 0
    ensures Remaining(NextTask(cfg, s, task, ch)) < Remaining(task)
  {
    if task.pass.todo != {} {
      var todo := task.pass.todo - {ch.key};
      assert task.pass.todo == todo + {ch.key};
      assert NextTask(cfg, s, task, ch) == CheckKey(ch.key, ToPass(task.pass.(todo := todo)));
    }
  }

  lemma RemovingShrinks(cfg: Config, s: State, task: Task, ch: Choice)
    requires Ready(s, task, ch) && task.PassRemoving?
    ensures Early(NextTask(cfg, s, task, ch)) == 0
    ensures Remaining(NextTask(cfg, s, task, ch)) < Remaining(task)
  {
    if task.pass.rest != {} {
      var rest := task.pass.rest - {ch.key};
      assert task.pass.rest == rest + {ch.key};
      var p := task.pass.(rest := rest);
      assert NextTask(cfg, s, task, ch) == if ch.key in p.desired then PassRemoving(p) else CliWant(Remove(ch.key, p));
    }
  }

  // In `Inner::sync`, or under the table's write lock.
  predicate AtTable(task: Task) {
    || task.CheckKey? || task.CheckedKey? || task.CliWant? || task.CliQueued? || task.CliHeld?
    || task.NotifyWant? || task.NotifyHeld? || task.Notified?
  }

  lemma SyncShrinks(cfg: Config, s: State, task: Task, ch: Choice)
    requires Ready(s, task, ch) && AtTable(task)
    ensures Early(NextTask(cfg, s, task, ch)) == 0
    ensures Remaining(NextTask(cfg, s, task, ch)) < Remaining(task)
  {
  }

  lemma TaskShrinks(cfg: Config, s: State, task: Task, ch: Choice)
    requires Ready(s, task, ch)
    ensures var next := NextTask(cfg, s, task, ch);
            Early(next) < Early(task) || (Early(next) == Early(task) && Remaining(next) < Remaining(task))
  {
    if task.PassSyncing? {
      SyncingShrinks(cfg, s, task, ch);
    } else if task.PassRemoving? {
      RemovingShrinks(cfg, s, task, ch);
    } else if AtTable(task) {
      SyncShrinks(cfg, s, task, ch);
    } else {
      OtherShrinks(cfg, s, task, ch);
    }
  }

  lemma OtherShrinks(cfg: Config, s: State, task: Task, ch: Choice)
    requires Ready(s, task, ch) && !task.PassSyncing? && !task.PassRemoving? && !AtTable(task)
    ensures var next := NextTask(cfg, s, task, ch);
            Early(next) < Early(task) || (Early(next) == Early(task) && Remaining(next) < Remaining(task))
  {
  }

  /** Every step of every thread lessens the work in flight, in any mode and build. */
  lemma StepShrinks(cfg: Config, s: State, t: Tid, ch: Choice)
    requires CanMove(cfg, s, t, ch)
    ensures Shrinks(s, Moved(cfg, s, t, ch))
  {
    var next := NextTask(cfg, s, s.threads[t].task, ch);
    TaskShrinks(cfg, s, s.threads[t].task, ch);
    ThreadShrinks(s.threads, t, next);
  }

  lemma ThreadShrinks(threads: map<Tid, Thread>, t: Tid, next: Task)
    requires t in threads
    ensures var after := threads[t := threads[t].(task := next)];
            && Sum(EarlyMap(after)) == Sum(EarlyMap(threads)) - Early(threads[t].task) + Early(next)
            && Sum(WorkMap(after)) == Sum(WorkMap(threads)) - Remaining(threads[t].task) + Remaining(next)
  {
    SumUpdate(EarlyMap(threads), t, Early(next));
    SumUpdate(WorkMap(threads), t, Remaining(next));
    EarlyMapUpdate(threads, t, next);
    WorkMapUpdate(threads, t, next);
  }

  lemma EarlyMapUpdate(threads: map<Tid, Thread>, t: Tid, next: Task)
    requires t in threads
    ensures EarlyMap(threads[t := threads[t].(task := next)]) == EarlyMap(threads)[t := Early(next)]
  {
  }

  lemma WorkMapUpdate(threads: map<Tid, Thread>, t: Tid, next: Task)
    requires t in threads
    ensures WorkMap(threads[t := threads[t].(task := next)]) == WorkMap(threads)[t := Remaining(next)]
  {
  }

  // ---------------------------------------------------------------------
  // Completion
  // ---------------------------------------------------------------------

  predicate OnlyMoves(run: seq<Action>) {
    forall a | a in run :: a.Move?
  }

  /**
   Where the locks cannot deadlock, the calls in flight in any reachable state can
   all be finished without any further call; and since every step lessens the
   work, a schedule that never idles cannot avoid finishing them.
   */
  lemma {:induction false} AllCallsCanFinish(cfg: Config, s: State) returns (run: seq<Action>, end: State)
    requires Reachable(cfg, s) && !(cfg.realtime && cfg.fair)
    ensures OnlyMoves(run) && Runs(cfg, s, run, end) && !Unfinished(end)
    decreases Sum(EarlyMap(s.threads)), Sum(WorkMap(s.threads))
  {
    if !Unfinished(s) {
      run, end := [], s;
    } else {
      ReachableInv(cfg, s);
      SomebodyMoves(cfg, s);
      var t, ch :| CanMove(cfg, s, t, ch);
      StepShrinks(cfg, s, t, ch);
      ReachableStep(cfg, s, Move(t, ch));
      var rest;
      rest, end := AllCallsCanFinish(cfg, Moved(cfg, s, t, ch));
      run := [Move(t, ch)] + rest;
      assert run[1..] == rest;
    }
  }

  /** Some schedule finishes every call in flight, without a further one. */
  ghost predicate CanAllFinish(cfg: Config, s: State) {
    exists run, end :: OnlyMoves(run) && Runs(cfg, s, run, end) && !Unfinished(end)
  }

  lemma CanAllFinishAfter(cfg: Config, s: State, t: Tid, ch: Choice)
    requires CanMove(cfg, s, t, ch) && CanAllFinish(cfg, Moved(cfg, s, t, ch))
    ensures CanAllFinish(cfg, s)
  {
    var rest, end :| OnlyMoves(rest) && Runs(cfg, Moved(cfg, s, t, ch), rest, end) && !Unfinished(end);
    var run := [Move(t, ch)] + rest;
    assert run[1..] == rest;
    assert OnlyMoves(run) && Runs(cfg, s, run, end);
  }
}
